/** The comma lists of cat/models.py: `s.split(', ')` cuts a string at every occurrence of the
    two-character separator `", "`, scanning left to right, and keeps empty pieces. */
module Lists {
  import opened Values

  /** `s` starts with the separator `", "`. */
  predicate StartsWithSep(s: string) {
    |s| >= 2 && s[0] == ',' && s[1] == ' '
  }

  /** The separator `", "` occurs somewhere in `s`. */
  predicate ContainsSep(s: string) {
    exists i :: 0 <= i < |s| && StartsWithSep(s[i..])
  }

  /** Python's `s.split(', ')`. */
  function Split(s: string): (r: seq<string>)
    ensures |r| >= 1
    ensures r[0] <= s
    decreases |s|
  {
    if s == [] then [""]
    else if StartsWithSep(s) then [""] + Split(s[2..])
    else
      var rest := Split(s[1..]);
      [[s[0]] + rest[0]] + rest[1..]
  }

  /** Python's `', '.join(ps)`. */
  function Join(ps: seq<string>): string {
    if ps == [] then ""
    else if |ps| == 1 then ps[0]
    else ps[0] + ", " + Join(ps[1..])
  }

  lemma JoinCons(c: char, ps: seq<string>)
    requires |ps| >= 1
    ensures Join([[c] + ps[0]] + ps[1..]) == [c] + Join(ps)
  {
    var qs := [[c] + ps[0]] + ps[1..];
    assert qs[1..] == ps[1..];
  }

  /** Joining the pieces with `", "` gives back the original string. */
  lemma {:induction false} JoinSplit(s: string)
    ensures Join(Split(s)) == s
    decreases |s|
  {
    if s == [] {
    } else if StartsWithSep(s) {
      JoinSplit(s[2..]);
      var ps := [""] + Split(s[2..]);
      assert ps[1..] == Split(s[2..]);
      assert s == ", " + s[2..];
    } else {
      JoinSplit(s[1..]);
      JoinCons(s[0], Split(s[1..]));
      assert s == [s[0]] + s[1..];
    }
  }

  /** Prepending a character that cannot begin a separator there keeps a piece clean. */
  lemma ConsClean(c: char, p: string, s: string)
    requires !ContainsSep(p)
    requires p <= s
    requires !StartsWithSep([c] + s)
    ensures !ContainsSep([c] + p)
  {
    var q := [c] + p;
    forall i | 0 <= i < |q| ensures !StartsWithSep(q[i..]) {
      if i == 0 {
        if |q| >= 2 {
          assert q[1] == p[0] == s[0];
          assert ([c] + s)[1] == s[0];
        }
      } else {
        assert q[i..] == p[i - 1..];
      }
    }
  }

  /** No piece contains the separator. */
  lemma {:induction false} SplitPiecesClean(s: string)
    ensures forall i :: 0 <= i < |Split(s)| ==> !ContainsSep(Split(s)[i])
    decreases |s|
  {
    if s == [] {
      assert Split(s) == [""];
    } else if StartsWithSep(s) {
      SplitPiecesClean(s[2..]);
      assert !ContainsSep("");
    } else {
      SplitPiecesClean(s[1..]);
      var rest := Split(s[1..]);
      ConsClean(s[0], rest[0], s[1..]);
      assert s == [s[0]] + s[1..];
    }
  }

  /** A clean piece followed by the separator is cut off as the first piece. */
  lemma {:induction false} SplitAfterPiece(p: string, rest: string)
    requires !ContainsSep(p)
    ensures Split(p + ", " + rest) == [p] + Split(rest)
    decreases |p|
  {
    var s := p + ", " + rest;
    if p == [] {
      assert s == ", " + rest;
      assert s[2..] == rest;
    } else {
      assert !StartsWithSep(p[0..]);
      assert s[0] == p[0];
      if |p| >= 2 {
        assert s[1] == p[1];
      } else {
        assert s[1] == ',';
      }
      assert !StartsWithSep(s);
      assert !ContainsSep(p[1..]) by {
        forall i | 0 <= i < |p[1..]| ensures !StartsWithSep(p[1..][i..]) {
          assert p[1..][i..] == p[i + 1..];
        }
      }
      assert s[1..] == p[1..] + ", " + rest;
      SplitAfterPiece(p[1..], rest);
      assert [p[0]] + p[1..] == p;
    }
  }

  /** A clean string is a single piece. */
  lemma {:induction false} SplitClean(p: string)
    requires !ContainsSep(p)
    ensures Split(p) == [p]
    decreases |p|
  {
    if p != [] {
      assert !StartsWithSep(p[0..]);
      assert p[0..] == p;
      assert !ContainsSep(p[1..]) by {
        forall i | 0 <= i < |p[1..]| ensures !StartsWithSep(p[1..][i..]) {
          assert p[1..][i..] == p[i + 1..];
        }
      }
      SplitClean(p[1..]);
      assert [p[0]] + p[1..] == p;
    }
  }

  /** Splitting a join of clean pieces gives the pieces back. */
  lemma {:induction false} SplitJoin(ps: seq<string>)
    requires |ps| >= 1
    requires forall i :: 0 <= i < |ps| ==> !ContainsSep(ps[i])
    ensures Split(Join(ps)) == ps
    decreases |ps|
  {
    if |ps| == 1 {
      SplitClean(ps[0]);
    } else {
      SplitJoin(ps[1..]);
      SplitAfterPiece(ps[0], Join(ps[1..]));
      assert ps == [ps[0]] + ps[1..];
    }
  }

  /** A string without a comma is clean. */
  lemma NoCommaClean(p: string)
    requires forall i :: 0 <= i < |p| ==> p[i] != ','
    ensures !ContainsSep(p)
  {
    forall i | 0 <= i < |p| ensures !StartsWithSep(p[i..]) {
      assert p[i..][0] == p[i];
    }
  }

  /** Examples: a temperament list, and the empty string, which splits into one empty piece. */
  lemma SplitExamples()
    ensures Split("Friendly, Gentle, Intelligent") == ["Friendly", "Gentle", "Intelligent"]
    ensures Split("") == [""]
  {
    var ps := ["Friendly", "Gentle", "Intelligent"];
    NoCommaClean(ps[0]);
    NoCommaClean(ps[1]);
    NoCommaClean(ps[2]);
    SplitJoin(ps);
    assert ps[1..][1..] == [ps[2]];
    assert Join(ps) == "Friendly, Gentle, Intelligent";
  }

  /** The strings of a list, each as a Python value. */
  function Strs(ps: seq<string>): (r: seq<Value>)
    ensures |r| == |ps| && forall i :: 0 <= i < |ps| ==> r[i] == VStr(ps[i])
  {
    seq(|ps|, i requires 0 <= i < |ps| => VStr(ps[i]))
  }

  /** Python's `v.split(', ')` on any value: only a string has the method. */
  function SplitCall(v: Value): Result<Value> {
    match v
    case VStr(s) => Success(VList(Strs(Split(s))))
    case _ => Failure(AttributeError)
  }

  /** `x and x.split(', ')`: a falsy value (None, "", 0, an empty list) is kept as it is; a
      non-empty string becomes the list of its pieces, none containing `", "`, which joined
      with `", "` give the string back; any other truthy value has no `.split`. */
  lemma SplitFieldMeaning(v: Value)
    ensures !Truthy(v) ==> And(v, SplitCall) == Success(v)
    ensures Truthy(v) && !v.VStr? ==> And(v, SplitCall) == Failure(AttributeError)
    ensures Truthy(v) && v.VStr? ==>
      exists ps: seq<string> ::
        && And(v, SplitCall) == Success(VList(Strs(ps)))
        && Join(ps) == v.s
        && forall i :: 0 <= i < |ps| ==> !ContainsSep(ps[i])
  {
    if Truthy(v) && v.VStr? {
      JoinSplit(v.s);
      SplitPiecesClean(v.s);
      assert And(v, SplitCall) == Success(VList(Strs(Split(v.s))));
    }
  }
}
