/**
 * Shortening a string to a character limit, by cutting its head, its middle
 * or its tail and marking the cut with a leader string; and the same applied
 * to every value of a string-valued dictionary.
 *
 * A Swift `Character` is one element of the sequence. Taking a prefix or a
 * suffix of negative length is a fatal error in Swift, so it appears here as
 * the precondition `CanTruncate`.
 */
module Truncation {

  datatype TruncationPosition = Head | Middle | Tail

  /** Swift's `prefix(n)`: the first `n` characters, or all of them. */
  function Prefix(s: string, n: int): string
    requires n >= 0
  {
    if n <= |s| then s[..n] else s
  }

  /** Swift's `suffix(n)`: the last `n` characters, or all of them. */
  function Suffix(s: string, n: int): string
    requires n >= 0
  {
    if n <= |s| then s[|s| - n..] else s
  }

  /** The ceiling of half of `x`. */
  function HalfUp(x: int): (r: int)
    ensures 2 * r == x || 2 * r == x + 1
  {
    (x + 1) / 2
  }

  /** The floor of half of `x`. */
  function HalfDown(x: int): (r: int)
    ensures 2 * r == x || 2 * r == x - 1
  {
    x / 2
  }

  /**
   * The arguments for which truncation does not trap: no cut is needed, or the
   * lengths handed to `prefix` and `suffix` are not negative.
   */
  predicate CanTruncate(s: string, limit: int, position: TruncationPosition, leader: string)
  {
    |s| <= limit ||
    match position
    case Middle => limit >= |leader|
    case _ => limit >= 0
  }

  /** `String.truncated(limit:position:leader:)`. */
  function Truncated(s: string, limit: int, position: TruncationPosition := Tail, leader: string := "..."): (r: string)
    requires CanTruncate(s, limit, position, leader)
    ensures |s| <= limit ==> r == s
    ensures |s| > limit && position == Tail ==>
      |r| == limit + |leader| && r == s[..limit] + leader
    ensures |s| > limit && position == Head ==>
      |r| == limit + |leader| && r == leader + s[|s| - limit..]
    ensures |s| > limit && position == Middle ==>
      |r| == limit &&
      r == s[..HalfUp(limit - |leader|)] + leader + s[|s| - HalfDown(limit - |leader|)..]
  {
    if |s| <= limit then s
    else
      match position
      case Head =>
        leader + Suffix(s, limit)
      case Middle =>
        var headCount := HalfUp(limit - |leader|);
        var tailCount := HalfDown(limit - |leader|);
        Prefix(s, headCount) + leader + Suffix(s, tailCount)
      case Tail =>
        Prefix(s, limit) + leader
  }

  /** Truncating what was already truncated, with the same arguments, changes nothing. */
  lemma TruncatedIdempotent(s: string, limit: int, position: TruncationPosition, leader: string)
    requires CanTruncate(s, limit, position, leader)
    ensures CanTruncate(Truncated(s, limit, position, leader), limit, position, leader)
    ensures Truncated(Truncated(s, limit, position, leader), limit, position, leader)
         == Truncated(s, limit, position, leader)
  {
    var r := Truncated(s, limit, position, leader);
    if |s| > limit && |r| > limit {
      match position
      case Head =>
        assert r[|r| - limit..] == s[|s| - limit..];
      case Middle =>
      case Tail =>
        assert r[..limit] == s[..limit];
    }
  }

  /** The defaults cut the tail and mark it with three dots. */
  lemma TruncatedDefaults(s: string, limit: nat)
    ensures |s| > limit ==> Truncated(s, limit) == s[..limit] + "..."
  {
  }

  /** The specification of `Dictionary.truncated`: every value truncated, keys kept. */
  function TruncatedValues<K>(d: map<K, string>, limit: int, position: TruncationPosition, leader: string): map<K, string>
    requires forall k :: k in d ==> CanTruncate(d[k], limit, position, leader)
  {
    map k | k in d :: Truncated(d[k], limit, position, leader)
  }

  /**
   * `Dictionary.truncated(limit:position:leader:)`: copies the dictionary and
   * overwrites each entry, in some order, with the truncation of the entry's
   * original value.
   */
  method DictionaryTruncated<K>(d: map<K, string>, limit: int, position: TruncationPosition := Tail, leader: string := "...")
    returns (dictionary: map<K, string>)
    requires forall k :: k in d ==> CanTruncate(d[k], limit, position, leader)
    ensures dictionary.Keys == d.Keys
    ensures forall k :: k in d ==> dictionary[k] == Truncated(d[k], limit, position, leader)
    ensures dictionary == TruncatedValues(d, limit, position, leader)
  {
    dictionary := d;
    var pending := d.Keys;
    while pending != {}
      invariant pending <= d.Keys
      invariant dictionary.Keys == d.Keys
      invariant forall k :: k in d && k !in pending ==> dictionary[k] == Truncated(d[k], limit, position, leader)
      invariant forall k :: k in pending ==> dictionary[k] == d[k]
      decreases pending
    {
      var key :| key in pending;
      dictionary := dictionary[key := Truncated(d[key], limit, position, leader)];
      pending := pending - {key};
    }
  }
}
