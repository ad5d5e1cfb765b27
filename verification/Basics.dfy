// Shared vocabulary: optional values, results, and the text rules the daemon,
// the engine and the wire protocol all use for identities.
module Basics {

  datatype Option<+T> = None | Some(value: T)

  datatype Result<+T, +E> = Ok(value: T) | Err(error: E)

  // The sequence numbers of events, generations and cursors are u64.
  const LAST_SEQ: nat := 0xFFFF_FFFF_FFFF_FFFF

  type SeqNo = n: nat | n <= LAST_SEQ

  function Max(a: nat, b: nat): nat {
    if a < b then b else a
  }

  function Min(a: nat, b: nat): nat {
    if a < b then a else b
  }

  function Each<A, B>(s: seq<A>, f: A -> B): (r: seq<B>)
    ensures |r| == |s| && forall k | 0 <= k < |s| :: r[k] == f(s[k])
  {
    seq(|s|, k requires 0 <= k < |s| => f(s[k]))
  }

  // What each element gives, one after the other.
  function FlatMap<A, B>(s: seq<A>, f: A -> seq<B>): seq<B> {
    if s == [] then [] else FlatMap(s[..|s| - 1], f) + f(s[|s| - 1])
  }

  lemma FlatMapOne<A, B>(x: A, f: A -> seq<B>)
    ensures FlatMap([x], f) == f(x)
  {
    assert [x][..0] == [];
  }

  lemma FlatMapNext<A, B>(s: seq<A>, k: nat, f: A -> seq<B>)
    requires k < |s|
    ensures FlatMap(s[..k + 1], f) == FlatMap(s[..k], f) + f(s[k])
  {
    assert s[..k + 1][..k] == s[..k];
  }

  lemma {:induction false} FlatMapNothing<A, B>(s: seq<A>, f: A -> seq<B>)
    requires forall x | x in s :: f(x) == []
    ensures FlatMap(s, f) == []
  {
    if s != [] {
      FlatMapNothing(s[..|s| - 1], f);
      assert f(s[|s| - 1]) == [];
    }
  }

  lemma FlatMapFirst<A, B>(s: seq<A>, k: nat, n: nat, f: A -> seq<B>)
    requires k < n <= |s|
    ensures FlatMap(s[k..n], f) == f(s[k]) + FlatMap(s[k + 1..n], f)
  {
    assert s[k..n] == [s[k]] + s[k + 1..n];
    FlatMapJoins([s[k]], s[k + 1..n], f);
    FlatMapOne(s[k], f);
  }

  lemma {:induction false} FlatMapJoins<A, B>(a: seq<A>, b: seq<A>, f: A -> seq<B>)
    ensures FlatMap(a + b, f) == FlatMap(a, f) + FlatMap(b, f)
  {
    if b == [] {
      assert a + b == a;
    } else {
      var n := |b| - 1;
      assert (a + b)[..|a| + n] == a + b[..n] && (a + b)[|a| + n] == b[n];
      FlatMapJoins(a, b[..n], f);
    }
  }

  // A slice of a log and a later slice of the log it grew into are one slice.
  lemma JoinSlices<T>(was: seq<T>, now: seq<T>, from: nat, mid: nat, to: nat)
    requires was <= now && from <= mid <= to <= |was|
    ensures now[from..mid] + was[mid..to] == was[from..to]
    ensures was[from..mid] + now[mid..to] == was[from..to]
  {
  }

  // The Unicode White_Space property, which `str::trim` strips.
  predicate IsWhitespace(c: char) {
    || '\U{0009}' <= c <= '\U{000D}'
    || c == ' '
    || c == '\U{0085}'
    || c == '\U{00A0}'
    || c == '\U{1680}'
    || '\U{2000}' <= c <= '\U{200A}'
    || c == '\U{2028}'
    || c == '\U{2029}'
    || c == '\U{202F}'
    || c == '\U{205F}'
    || c == '\U{3000}'
  }

  // s.trim().is_empty()
  predicate Blank(s: string) {
    forall i | 0 <= i < |s| :: IsWhitespace(s[i])
  }

  // s.trim() == s
  predicate Unpadded(s: string) {
    s == [] || (!IsWhitespace(s[0]) && !IsWhitespace(s[|s| - 1]))
  }

  // Rust's str::len counts UTF-8 bytes.
  function Utf8Length(s: string): nat {
    if s == [] then 0
    else
      var c := s[0] as int;
      (if c < 0x80 then 1 else if c < 0x800 then 2 else if c < 0x10000 then 3 else 4) + Utf8Length(s[1..])
  }

  lemma ShortText(s: string, maxBytes: nat)
    requires s != [] && Unpadded(s) && 4 * |s| <= maxBytes
    ensures BoundedText(s, maxBytes)
  {
    Utf8AtMost(s);
  }

  lemma {:induction false} Utf8AtMost(s: string)
    ensures Utf8Length(s) <= 4 * |s|
  {
    if s != [] { Utf8AtMost(s[1..]); }
  }

  predicate BoundedText(s: string, maxBytes: nat) {
    s != [] && Unpadded(s) && Utf8Length(s) <= maxBytes
  }

  predicate Distinct<T(==)>(s: seq<T>) {
    forall i, j | 0 <= i < j < |s| :: s[i] != s[j]
  }

  function ToSet<T>(s: seq<T>): set<T> {
    set x | x in s
  }

  lemma DistinctAppend<T>(s: seq<T>, x: T)
    ensures Distinct(s + [x]) <==> Distinct(s) && x !in s
    ensures ToSet(s + [x]) == ToSet(s) + {x}
  {
    var t := s + [x];
    if Distinct(t) {
      forall i, j | 0 <= i < j < |s| ensures s[i] != s[j] { assert t[i] != t[j]; }
      forall i | 0 <= i < |s| ensures s[i] != x { assert t[i] != t[|s|]; }
    }
  }

  // The same ids, each once, in any order.
  ghost predicate SameIds(a: seq<string>, b: seq<string>) {
    Distinct(a) && Distinct(b) && |a| == |b| && ToSet(a) == ToSet(b)
  }

  // Code-point order, which is the byte order of UTF-8 text.
  predicate Less(a: string, b: string) {
    b != [] && (a == [] || a[0] < b[0] || (a[0] == b[0] && Less(a[1..], b[1..])))
  }

  lemma LessTransitive(a: string, b: string, c: string)
    requires Less(a, b) && Less(b, c)
    ensures Less(a, c)
  {
  }

  lemma LessTotal(a: string, b: string)
    ensures Less(a, b) || a == b || Less(b, a)
  {
    if a != [] && b != [] && a[0] == b[0] {
      LessTotal(a[1..], b[1..]);
      assert a == [a[0]] + a[1..] && b == [b[0]] + b[1..];
    }
  }

  lemma LessIrreflexive(a: string)
    ensures !Less(a, a)
  {
  }
}
