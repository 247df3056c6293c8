/**
 * Vocabulary shared by the driving scripts: optional values, the keyboard
 * keys and pygame events they look at, Python's `round(x, n)` on an exact
 * value, and the few string operations (`startswith`, `endswith`, `in`,
 * `split`) the scripts apply to file names and paths.
 */
module Common {

  datatype Option<T> = None | Some(value: T)

  /** The keys the scripts test; every other key is `Other`. */
  datatype Key =
    | KeyW | KeyA | KeyS | KeyD | KeyX | KeyQ | KeyR | KeyC
    | KeySpace | ArrowUp | ArrowDown | ArrowLeft | ArrowRight | KeyEscape | KeyTab
    | Other(code: int)

  /** A pygame event as the scripts see it. */
  datatype Event = Quit | KeyDown(key: Key) | KeyUp(key: Key) | OtherEvent

  // ---------------------------------------------------------------------
  // Python's round(x, n)
  // ---------------------------------------------------------------------

  /**
   * The integer nearest to `x * scale`, ties going to the even neighbour:
   * the digits Python's `round(x, n)` keeps when `scale == 10^n`.
   */
  function RoundedUnits(x: real, scale: nat): (k: int)
    requires scale > 0
    ensures k as real - 0.5 <= x * scale as real <= k as real + 0.5
    ensures x * scale as real - k as real == 0.5 ==> k % 2 == 0
    ensures k as real - x * scale as real == 0.5 ==> k % 2 == 0
  {
    var y := x * scale as real;
    var n := y.Floor;
    var f := y - n as real;
    if f < 0.5 then n
    else if f > 0.5 then n + 1
    else if n % 2 == 0 then n else n + 1
  }

  /** Python's `round(x, n)` for `scale == 10^n`. */
  function RoundHalfEven(x: real, scale: nat): real
    requires scale > 0
  {
    RoundedUnits(x, scale) as real / scale as real
  }

  /** Rounding to tenths never leaves a range whose ends are whole tenths. */
  lemma RoundTenthsWithin(x: real, tenths: nat)
    requires -(tenths as real) / 10.0 <= x <= tenths as real / 10.0
    ensures -(tenths as real) / 10.0 <= RoundHalfEven(x, 10) <= tenths as real / 10.0
    ensures -0.05 <= RoundHalfEven(x, 10) - x <= 0.05
  {
    var k := RoundedUnits(x, 10);
    assert -(tenths as int) <= k <= tenths as int;
  }

  // ---------------------------------------------------------------------
  // Strings
  // ---------------------------------------------------------------------

  /** `s.startswith(p)` */
  predicate StartsWith(s: string, p: string) {
    |p| <= |s| && s[..|p|] == p
  }

  /** `s.endswith(p)` */
  predicate EndsWith(s: string, p: string) {
    |p| <= |s| && s[|s| - |p|..] == p
  }

  /** `t` occurs in `s` starting at index `j`. */
  predicate OccursAt(s: string, t: string, j: int) {
    0 <= j && j + |t| <= |s| && s[j..j + |t|] == t
  }

  /** The first index at or after `from` where the non-empty `t` occurs in `s`. */
  function FindFrom(s: string, t: string, from: nat): (r: Option<nat>)
    requires |t| > 0
    decreases |s| - from
    ensures r.Some? ==> from <= r.value && OccursAt(s, t, r.value)
    ensures forall j :: from <= j && (r.None? || j < r.value) ==> !OccursAt(s, t, j)
  {
    if from + |t| > |s| then None
    else if s[from..from + |t|] == t then Some(from)
    else FindFrom(s, t, from + 1)
  }

  /** `s.find(t)`, with `None` for -1. */
  function Find(s: string, t: string): (r: Option<nat>)
    requires |t| > 0
    ensures r.Some? ==> OccursAt(s, t, r.value)
    ensures forall j :: (r.None? || j < r.value) ==> !OccursAt(s, t, j)
  {
    FindFrom(s, t, 0)
  }

  /** `t in s` */
  predicate Contains(s: string, t: string) {
    |t| == 0 || Find(s, t).Some?
  }

  /** `s.split(sep)[0]`: the text before the first `sep`, or all of `s`. */
  function FieldBefore(s: string, sep: string): string
    requires |sep| > 0
  {
    match Find(s, sep)
    case None => s
    case Some(j) => s[..j]
  }

  /**
   * `s.split(sep)[1]`: the text between the first and second `sep` (or the
   * end); `None` where Python raises IndexError because `sep` is absent.
   */
  function SecondField(s: string, sep: string): Option<string>
    requires |sep| > 0
  {
    match Find(s, sep)
    case None => None
    case Some(j) => Some(FieldBefore(s[j + |sep|..], sep))
  }

  /** `t in a + t + b` */
  lemma ContainsInfix(a: string, t: string, b: string)
    ensures Contains(a + t + b, t)
  {
    if |t| > 0 {
      var s := a + t + b;
      assert s[|a|..|a| + |t|] == t;
      assert OccursAt(s, t, |a|);
    }
  }

  /** A string in which some character of `t` never appears does not contain `t`. */
  lemma NotFoundWithout(s: string, t: string, k: nat)
    requires k < |t|
    requires forall i :: 0 <= i < |s| ==> s[i] != t[k]
    ensures Find(s, t).None?
  {
    forall j | OccursAt(s, t, j) ensures s[j + k] == t[k] {
      assert s[j..j + |t|][k] == s[j + k];
    }
  }

  /** `Find` reports an occurrence when no earlier index can start one. */
  lemma FoundAt(s: string, t: string, j: nat)
    requires |t| > 0 && OccursAt(s, t, j)
    requires forall i :: 0 <= i < j && i < |s| ==> s[i] != t[0]
    ensures Find(s, t) == Some(j)
  {
    forall i | OccursAt(s, t, i) ensures s[i] == t[0] {
      assert s[i..i + |t|][0] == s[i];
    }
  }

  /** A head holding no first character of `sep` survives whole in `s.split(sep)[0]`. */
  lemma HeadBeforeSeparator(head: string, rest: string, sep: string)
    requires |sep| > 0
    requires forall i :: 0 <= i < |head| ==> head[i] != sep[0]
    ensures |FieldBefore(head + rest, sep)| >= |head| && FieldBefore(head + rest, sep)[..|head|] == head
  {
    var s := head + rest;
    match Find(s, sep)
    case None =>
    case Some(j) =>
      assert s[j] == sep[0] by { assert s[j..j + |sep|][0] == s[j]; }
      assert forall i :: 0 <= i < |head| ==> s[i] == head[i];
      assert j >= |head|;
      assert s[..j][..|head|] == head;
  }
}
