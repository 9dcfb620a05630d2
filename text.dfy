/** The two string operations of Python the core relies on: `str.split` with
    an explicit, non-empty separator and `str.join`. */
module Text {
  import opened Results

  /** `sep` occurs in `t` starting at index `i`. */
  predicate OccursAt(t: string, sep: string, i: nat) {
    i + |sep| <= |t| && t[i..i + |sep|] == sep
  }

  ghost predicate Occurs(t: string, sep: string) {
    exists i: nat :: OccursAt(t, sep, i)
  }

  /** The index of the leftmost occurrence of `sep` in `t`, if any. */
  function Find(t: string, sep: string): Option<nat>
    requires |sep| > 0
    decreases |t|
  {
    if |t| < |sep| then None
    else if t[..|sep|] == sep then Some(0)
    else match Find(t[1..], sep)
      case None => None
      case Some(i) => Some(i + 1)
  }

  lemma OccursShift(t: string, sep: string, j: nat)
    requires 0 < j
    requires |t| > 0
    ensures OccursAt(t, sep, j) <==> OccursAt(t[1..], sep, j - 1)
  {
    if j + |sep| <= |t| {
      assert t[1..][j - 1..j - 1 + |sep|] == t[j..j + |sep|];
    }
  }

  /** Find returns the leftmost occurrence, and None exactly when there is none. */
  lemma {:induction false} FindLeftmost(t: string, sep: string)
    requires |sep| > 0
    ensures Find(t, sep).Some? ==>
              OccursAt(t, sep, Find(t, sep).value) &&
              forall j: nat :: j < Find(t, sep).value ==> !OccursAt(t, sep, j)
    ensures Find(t, sep).None? ==> !Occurs(t, sep)
    decreases |t|
  {
    if |t| < |sep| {
    } else if t[..|sep|] == sep {
      assert OccursAt(t, sep, 0);
    } else {
      assert !OccursAt(t, sep, 0);
      FindLeftmost(t[1..], sep);
      forall j: nat | 0 < j
        ensures OccursAt(t, sep, j) <==> OccursAt(t[1..], sep, j - 1)
      {
        OccursShift(t, sep, j);
      }
      if Find(t[1..], sep).None? {
        forall j: nat ensures !OccursAt(t, sep, j) {
          if 0 < j {
            assert !OccursAt(t[1..], sep, j - 1);
          }
        }
      }
    }
  }

  /** Python's `t.split(sep)`: the pieces between the leftmost non-overlapping
      occurrences of `sep`, scanning from left to right. */
  function Split(t: string, sep: string): (parts: seq<string>)
    requires |sep| > 0
    ensures |parts| >= 1
    decreases |t|
  {
    match Find(t, sep)
    case None => [t]
    case Some(i) =>
      FindLeftmost(t, sep);
      [t[..i]] + Split(t[i + |sep|..], sep)
  }

  /** Python's `sep.join(parts)`. */
  function Join(parts: seq<string>, sep: string): (r: string)
    ensures |parts| > 0 ==> |r| >= |parts[0]|
  {
    if |parts| == 0 then ""
    else if |parts| == 1 then parts[0]
    else parts[0] + sep + Join(parts[1..], sep)
  }

  /** Joining the pieces of a split with the same separator gives back the text. */
  lemma {:induction false} JoinSplit(t: string, sep: string)
    requires |sep| > 0
    ensures Join(Split(t, sep), sep) == t
    decreases |t|
  {
    FindLeftmost(t, sep);
    match Find(t, sep)
    case None =>
    case Some(i) =>
      var rest := t[i + |sep|..];
      JoinSplit(rest, sep);
      JoinCons(t[..i], Split(rest, sep), sep);
      assert t[i..i + |sep|] == sep;
      assert t == t[..i] + t[i..i + |sep|] + rest;
  }

  lemma JoinCons(p: string, parts: seq<string>, sep: string)
    requires |parts| > 0
    ensures Join([p] + parts, sep) == p + sep + Join(parts, sep)
  {
    assert ([p] + parts)[1..] == parts;
  }

  lemma OccursInPrefix(t: string, sep: string, i: nat, j: nat)
    requires i <= |t|
    requires OccursAt(t[..i], sep, j)
    ensures OccursAt(t, sep, j)
  {
    assert t[..i][j..j + |sep|] == t[j..j + |sep|];
  }

  /** No piece of a split contains the separator. */
  lemma {:induction false} SplitPiecesAreFree(t: string, sep: string, k: nat)
    requires |sep| > 0
    requires k < |Split(t, sep)|
    ensures !Occurs(Split(t, sep)[k], sep)
    decreases |t|
  {
    FindLeftmost(t, sep);
    match Find(t, sep)
    case None =>
    case Some(i) =>
      var rest := t[i + |sep|..];
      assert Split(t, sep) == [t[..i]] + Split(rest, sep);
      if k == 0 {
        forall j: nat ensures !OccursAt(t[..i], sep, j) {
          if OccursAt(t[..i], sep, j) {
            OccursInPrefix(t, sep, i, j);
          }
        }
      } else {
        SplitPiecesAreFree(rest, sep, k - 1);
      }
  }

  /** A text without the separator splits into itself alone. */
  lemma SplitWithoutSeparator(t: string, sep: string)
    requires |sep| > 0
    ensures Split(t, sep) == [t] <==> !Occurs(t, sep)
  {
    FindLeftmost(t, sep);
    if Find(t, sep).Some? {
      var i := Find(t, sep).value;
      assert |Split(t, sep)| == 1 + |Split(t[i + |sep|..], sep)|;
    }
  }

  /** With a one-character separator, a first piece free of it is split off
      exactly. */
  lemma SplitFirst(a: string, sep: string, rest: string)
    requires |sep| == 1
    requires !Occurs(a, sep)
    ensures Split(a + sep + rest, sep) == [a] + Split(rest, sep)
  {
    var t := a + sep + rest;
    FindLeftmost(t, sep);
    assert OccursAt(t, sep, |a|) by {
      assert t[|a|..|a| + 1] == sep;
    }
    forall j: nat | j < |a| ensures !OccursAt(t, sep, j) {
      assert !OccursAt(a, sep, j);
      assert t[j..j + 1] == a[j..j + 1];
    }
    assert Find(t, sep) == Some(|a|);
    assert t[..|a|] == a;
    assert t[|a| + 1..] == rest;
  }
}
