/**
 * Decoding the comma-separated list of supported device identifiers that
 * `addScale` and `addWatch` receive: an empty string is the empty list, any other
 * string is cut with Java's `String.split(",")`, which drops trailing empty pieces.
 */
module IdList {

  /** True when no piece contains the separator. */
  predicate CommaFree(ps: seq<string>)
  {
    forall i :: 0 <= i < |ps| ==> ',' !in ps[i]
  }

  /** `s` cut at every comma, every piece kept (empty ones included). */
  function Pieces(s: string): (ps: seq<string>)
    ensures |ps| >= 1
    decreases |s|
  {
    if s == [] then [""]
    else
      var rest := Pieces(s[1..]);
      if s[0] == ',' then [""] + rest else [[s[0]] + rest[0]] + rest[1..]
  }

  /** The pieces glued back together with commas: the inverse of Pieces. */
  function Join(ps: seq<string>): string
    requires |ps| >= 1
    decreases |ps|
  {
    if |ps| == 1 then ps[0] else ps[0] + "," + Join(ps[1..])
  }

  /** `ps` without its trailing empty strings. */
  function DropTrailingEmpty(ps: seq<string>): (r: seq<string>)
    ensures |r| <= |ps| && r == ps[..|r|]
    ensures r != [] ==> r[|r| - 1] != ""
    ensures forall k :: |r| <= k < |ps| ==> ps[k] == ""
    decreases |ps|
  {
    if ps == [] then []
    else if ps[|ps| - 1] == "" then DropTrailingEmpty(ps[..|ps| - 1])
    else ps
  }

  /** Java's `s.split(",")`: no comma gives `[s]`; otherwise every piece but the trailing empty ones. */
  function JavaSplit(s: string): (r: seq<string>)
    ensures s == "" ==> r == [""]
    ensures s != "" ==> r == DropTrailingEmpty(Pieces(s))
  {
    if ',' !in s then PiecesNoComma(s); [s] else DropTrailingEmpty(Pieces(s))
  }

  /** The identifier list handed to the SDK (SkalySDK.java:87-92). */
  function DecodeIdList(s: string): (r: seq<string>)
    ensures s == "" ==> r == []
    ensures s != "" ==> r == DropTrailingEmpty(Pieces(s))
  {
    if |s| > 0 then JavaSplit(s) else []
  }

  /** Cutting and gluing back gives the string again, and no piece holds a comma. */
  lemma {:induction false} JoinPieces(s: string)
    ensures CommaFree(Pieces(s))
    ensures Join(Pieces(s)) == s
    decreases |s|
  {
    if s != [] {
      var rest := Pieces(s[1..]);
      JoinPieces(s[1..]);
      if s[0] != ',' {
        var ps := Pieces(s);
        assert ps == [[s[0]] + rest[0]] + rest[1..];
        if |rest| > 1 {
          assert Join(rest) == rest[0] + "," + Join(rest[1..]);
          assert ps[1..] == rest[1..];
        }
        assert s == [s[0]] + s[1..];
        forall i | 0 <= i < |ps| ensures ',' !in ps[i] {
          if i > 0 { assert ps[i] == rest[i]; }
        }
      } else {
        assert Pieces(s)[1..] == rest;
        assert s == [','] + s[1..];
      }
    }
  }

  /** Pieces of a comma-free prefix followed by `t`: the prefix joins the first piece of `t`. */
  lemma {:induction false} PiecesOfPrefix(p: string, t: string)
    requires ',' !in p
    ensures Pieces(p + t) == [p + Pieces(t)[0]] + Pieces(t)[1..]
    decreases |p|
  {
    if p != [] {
      PiecesOfPrefix(p[1..], t);
      assert (p + t)[0] == p[0];
      assert (p + t)[1..] == p[1..] + t;
      assert [p[0]] + (p[1..] + Pieces(t)[0]) == p + Pieces(t)[0];
    } else {
      assert p + t == t;
      assert p + Pieces(t)[0] == Pieces(t)[0];
    }
  }

  /** A string without commas is a single piece. */
  lemma PiecesNoComma(s: string)
    requires ',' !in s
    ensures Pieces(s) == [s]
  {
    PiecesOfPrefix(s, "");
    assert s + "" == s;
  }

  /** Gluing comma-free pieces and cutting again gives the same pieces. */
  lemma {:induction false} PiecesJoin(ps: seq<string>)
    requires |ps| >= 1 && CommaFree(ps)
    ensures Pieces(Join(ps)) == ps
    decreases |ps|
  {
    assert ',' !in ps[0];
    if |ps| == 1 {
      PiecesNoComma(ps[0]);
    } else {
      var t := Join(ps[1..]);
      assert CommaFree(ps[1..]) by {
        forall i | 0 <= i < |ps[1..]| ensures ',' !in ps[1..][i] { assert ps[1..][i] == ps[i + 1]; }
      }
      PiecesJoin(ps[1..]);
      assert Pieces("," + t) == [""] + Pieces(t);
      PiecesOfPrefix(ps[0], "," + t);
      assert ps[0] + "," + t == ps[0] + ("," + t);
      var q := Pieces("," + t);
      assert q[0] == "" && q[1..] == ps[1..];
      assert ps[0] + q[0] == ps[0];
      assert [ps[0]] + ps[1..] == ps;
    }
  }

  /**
   * The decoded list: empty for the empty string; otherwise the comma-separated pieces
   * in order, with the trailing empty ones (and only those) dropped.
   */
  lemma DecodeIdListSpec(s: string)
    ensures s == "" ==> DecodeIdList(s) == []
    ensures s != "" ==>
      var r, ps := DecodeIdList(s), Pieces(s);
      && |r| <= |ps| && r == ps[..|r|]
      && (r != [] ==> r[|r| - 1] != "")
      && (forall k :: |r| <= k < |ps| ==> ps[k] == "")
    ensures CommaFree(DecodeIdList(s))
  {
    JoinPieces(s);
    if s != "" && ',' !in s {
      PiecesNoComma(s);
    }
    var r, ps := DecodeIdList(s), Pieces(s);
    if s != "" {
      forall i | 0 <= i < |r| ensures ',' !in r[i] { assert r[i] == ps[i]; }
    }
  }

  /** Two typical inputs: a middle empty piece is kept, trailing ones are dropped. */
  lemma DecodeIdListExamples()
    ensures DecodeIdList("a,,b,,") == ["a", "", "b"]
    ensures DecodeIdList(",,") == []
    ensures DecodeIdList("a") == ["a"]
  {
    PiecesJoin(["a", "", "b", "", ""]);
    assert Join(["a", "", "b", "", ""]) == "a,,b,,";
    assert DropTrailingEmpty(["a", "", "b", "", ""]) == ["a", "", "b"] by {
      assert ["a", "", "b", "", ""][..4] == ["a", "", "b", ""];
      assert ["a", "", "b", ""][..3] == ["a", "", "b"];
    }
    PiecesJoin(["", "", ""]);
    assert Join(["", "", ""]) == ",,";
    assert DropTrailingEmpty(["", "", ""]) == [] by {
      assert ["", "", ""][..2] == ["", ""];
      assert ["", ""][..1] == [""];
      assert [""][..0] == [];
    }
  }
}
