/**
 * The few PHP primitives the URL builder is written with: a nullable string,
 * PHP's truthiness of such a string, `implode` with a one-character glue,
 * `array_filter` without a callback, and `explode`, the inverse of `implode`
 * that the round-trip lemmas of the other modules are stated with.
 */
module Php {

  /** A PHP value that may be `null`. */
  datatype Option<+T> = None | Some(value: T)

  /** PHP's boolean reading of a `string|null`: `null`, `""` and `"0"` are falsy. */
  predicate Truthy(v: Option<string>) {
    v.Some? && v.value != "" && v.value != "0"
  }

  /** `implode(glue, pieces)` for a glue of one character. */
  function Implode(glue: char, pieces: seq<string>): string
    decreases |pieces|
  {
    if |pieces| == 0 then ""
    else if |pieces| == 1 then pieces[0]
    else pieces[0] + [glue] + Implode(glue, pieces[1..])
  }

  /** `explode(glue, s)`: the pieces of `s` between occurrences of `glue`. */
  function Explode(glue: char, s: string): (r: seq<string>)
    ensures |r| >= 1
    ensures forall i :: 0 <= i < |r| ==> glue !in r[i]
    decreases |s|
  {
    if |s| == 0 then [""]
    else
      var rest := Explode(glue, s[1..]);
      if s[0] == glue then [""] + rest else [[s[0]] + rest[0]] + rest[1..]
  }

  /** `array_filter(xs)` without a callback, re-indexed: the truthy members in order. */
  function ArrayFilter(xs: seq<Option<string>>): (r: seq<string>)
    ensures |r| <= |xs|
    ensures forall i :: 0 <= i < |r| ==> Truthy(Some(r[i]))
    decreases |xs|
  {
    if |xs| == 0 then []
    else (if Truthy(xs[0]) then [xs[0].value] else []) + ArrayFilter(xs[1..])
  }

  /** Every piece followed by the glue: what `implode` yields with one more glue at the end. */
  function Terminated(glue: char, pieces: seq<string>): string
    decreases |pieces|
  {
    if |pieces| == 0 then "" else pieces[0] + [glue] + Terminated(glue, pieces[1..])
  }

  /** The contribution of one array member to `implode` after `array_filter`. */
  function Slot(glue: char, v: Option<string>): string {
    if Truthy(v) then v.value + [glue] else ""
  }

  /** The slot of each member, in order. */
  function Slots(glue: char, xs: seq<Option<string>>): (r: seq<string>)
    ensures |r| == |xs|
  {
    seq(|xs|, i requires 0 <= i < |xs| => Slot(glue, xs[i]))
  }

  /** The concatenation of the strings, in order. */
  function Concat(ss: seq<string>): string
    decreases |ss|
  {
    if |ss| == 0 then "" else ss[0] + Concat(ss[1..])
  }

  lemma {:induction false} ExplodeNoGlue(glue: char, p: string)
    requires glue !in p
    ensures Explode(glue, p) == [p]
    decreases |p|
  {
    if |p| > 0 {
      ExplodeNoGlue(glue, p[1..]);
      assert [p[0]] + p[1..] == p;
    }
  }

  lemma {:induction false} ExplodeCons(glue: char, p: string, s: string)
    requires glue !in p
    ensures Explode(glue, p + [glue] + s) == [p] + Explode(glue, s)
    decreases |p|
  {
    var t := p + [glue] + s;
    if |p| == 0 {
      assert t == [glue] + s;
      assert t[1..] == s;
    } else {
      assert t[1..] == p[1..] + [glue] + s;
      ExplodeCons(glue, p[1..], s);
      assert [p[0]] + p[1..] == p;
    }
  }

  /** `explode` undoes `implode` when no piece contains the glue. */
  lemma {:induction false} ExplodeImplode(glue: char, pieces: seq<string>)
    requires |pieces| >= 1
    requires forall i :: 0 <= i < |pieces| ==> glue !in pieces[i]
    ensures Explode(glue, Implode(glue, pieces)) == pieces
    decreases |pieces|
  {
    if |pieces| == 1 {
      ExplodeNoGlue(glue, pieces[0]);
    } else {
      ExplodeImplode(glue, pieces[1..]);
      ExplodeCons(glue, pieces[0], Implode(glue, pieces[1..]));
      assert [pieces[0]] + pieces[1..] == pieces;
    }
  }

  /** `implode` undoes `explode`: splitting loses nothing. */
  lemma {:induction false} ImplodeExplode(glue: char, s: string)
    ensures Implode(glue, Explode(glue, s)) == s
    decreases |s|
  {
    if |s| > 0 {
      var rest := Explode(glue, s[1..]);
      ImplodeExplode(glue, s[1..]);
      if s[0] == glue {
        assert ([""] + rest)[1..] == rest;
      } else {
        var r := [[s[0]] + rest[0]] + rest[1..];
        if |rest| == 1 {
          assert [s[0]] + s[1..] == s;
        } else {
          assert r[1..] == rest[1..];
          assert Implode(glue, rest) == rest[0] + [glue] + Implode(glue, rest[1..]);
          assert [s[0]] + s[1..] == s;
        }
      }
    }
  }

  /** Appending a piece appends one glue and the piece: insertion order is kept. */
  lemma {:induction false} ImplodeSnoc(glue: char, pieces: seq<string>, p: string)
    requires |pieces| >= 1
    ensures Implode(glue, pieces + [p]) == Implode(glue, pieces) + [glue] + p
    decreases |pieces|
  {
    if |pieces| > 1 {
      ImplodeSnoc(glue, pieces[1..], p);
      assert (pieces + [p])[1..] == pieces[1..] + [p];
    } else {
      assert (pieces + [p])[1..] == [p];
    }
  }

  /** With a glue at the end, `implode` is the concatenation of every piece and its glue. */
  lemma {:induction false} ImplodeTerminated(glue: char, pieces: seq<string>)
    requires |pieces| >= 1
    ensures Implode(glue, pieces) + [glue] == Terminated(glue, pieces)
    decreases |pieces|
  {
    if |pieces| > 1 {
      ImplodeTerminated(glue, pieces[1..]);
    }
  }

  /** `array_filter` then glue-terminated `implode` is the concatenation of the members' slots. */
  lemma {:induction false} FilteredSlots(glue: char, xs: seq<Option<string>>)
    ensures Terminated(glue, ArrayFilter(xs)) == Concat(Slots(glue, xs))
    decreases |xs|
  {
    if |xs| > 0 {
      FilteredSlots(glue, xs[1..]);
      assert Slots(glue, xs)[1..] == Slots(glue, xs[1..]);
      var tail := ArrayFilter(xs[1..]);
      if Truthy(xs[0]) {
        assert ArrayFilter(xs) == [xs[0].value] + tail;
        assert ([xs[0].value] + tail)[1..] == tail;
      } else {
        assert ArrayFilter(xs) == tail;
      }
    }
  }

  /** `array_filter` keeps nothing exactly when no member is truthy. */
  lemma {:induction false} ArrayFilterEmpty(xs: seq<Option<string>>)
    ensures ArrayFilter(xs) == [] <==> forall i :: 0 <= i < |xs| ==> !Truthy(xs[i])
    decreases |xs|
  {
    if |xs| > 0 {
      ArrayFilterEmpty(xs[1..]);
      assert forall i :: 1 <= i < |xs| ==> xs[i] == xs[1..][i - 1];
    }
  }

  /** `implode` of truthy pieces is empty exactly when there are no pieces. */
  lemma ImplodeEmpty(glue: char, pieces: seq<string>)
    requires forall i :: 0 <= i < |pieces| ==> pieces[i] != ""
    ensures Implode(glue, pieces) == "" <==> pieces == []
  {
    if |pieces| == 1 {
      assert Implode(glue, pieces) == pieces[0];
    } else if |pieces| > 1 {
      assert |Implode(glue, pieces)| >= |pieces[0]| + 1;
    }
  }
}
