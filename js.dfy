/** The small part of JavaScript's value semantics the bridge relies on:
    values that may be missing, string-or-nullish lookups, truthiness,
    and `String.prototype.split(",")`. */
module Js {

  /** A value that may be absent (a field still `undefined`, a listener not installed). */
  datatype Option<+T> = None | Some(value: T)

  /** A lookup result that is either a string or nullish (`undefined` from an object
      property that is not there, `null` from a store field that is not there). */
  datatype JsValue = Nullish | Str(s: string)

  /** JavaScript truthiness of such a value, as `!endpoint` tests it: the falsy
      values are exactly nullish and the empty string. */
  predicate Truthy(v: JsValue): (b: bool)
    ensures !b <==> v == Nullish || v == Str("")
  {
    v.Str? && v.s != ""
  }

  /** `s.split(",")`: the text between consecutive commas, in order. Empty pieces
      (leading, trailing or doubled commas) are kept, and no piece holds a comma. */
  function Split(s: string): (pieces: seq<string>)
    ensures |pieces| >= 1
    ensures forall i :: 0 <= i < |pieces| ==> ',' !in pieces[i]
    decreases |s|
  {
    if s == [] then [""]
    else
      var rest := Split(s[1..]);
      if s[0] == ',' then [""] + rest
      else [[s[0]] + rest[0]] + rest[1..]
  }

  /** `pieces.join(",")`, the inverse of Split. */
  function Join(pieces: seq<string>): string
    requires |pieces| >= 1
  {
    if |pieces| == 1 then pieces[0] else pieces[0] + "," + Join(pieces[1..])
  }

  /** Joining the pieces of a split gives back the original string. */
  lemma {:induction false} JoinSplit(s: string)
    ensures Join(Split(s)) == s
    decreases |s|
  {
    if s != [] {
      var rest := Split(s[1..]);
      JoinSplit(s[1..]);
      if s[0] == ',' {
        assert ([""] + rest)[1..] == rest;
        assert s == "," + s[1..];
      } else if |rest| == 1 {
        assert s == [s[0]] + s[1..];
      } else {
        var pieces := [[s[0]] + rest[0]] + rest[1..];
        assert pieces[1..] == rest[1..];
        calc {
          Join(pieces);
          ([s[0]] + rest[0]) + "," + Join(rest[1..]);
          [s[0]] + (rest[0] + "," + Join(rest[1..]));
          [s[0]] + Join(rest);
          s;
        }
      }
    }
  }

  /** Splitting a comma-free prefix followed by more text glues the prefix onto the
      first piece of the rest. */
  lemma {:induction false} SplitCommaFreePrefix(w: string, t: string)
    requires ',' !in w
    ensures Split(w + t) == [w + Split(t)[0]] + Split(t)[1..]
    decreases |w|
  {
    if w != [] {
      assert (w + t)[1..] == w[1..] + t;
      assert (w + t)[0] == w[0];
      SplitCommaFreePrefix(w[1..], t);
      assert [w[0]] + (w[1..] + Split(t)[0]) == w + Split(t)[0];
    } else {
      assert w + t == t;
      assert w + Split(t)[0] == Split(t)[0];
      assert Split(t) == [Split(t)[0]] + Split(t)[1..];
    }
  }

  /** Splitting the join of comma-free pieces gives back exactly those pieces. */
  lemma {:induction false} SplitJoin(pieces: seq<string>)
    requires |pieces| >= 1
    requires forall i :: 0 <= i < |pieces| ==> ',' !in pieces[i]
    ensures Split(Join(pieces)) == pieces
    decreases |pieces|
  {
    if |pieces| == 1 {
      SplitCommaFreePrefix(pieces[0], "");
      assert pieces[0] + "" == pieces[0];
    } else {
      var tail := Join(pieces[1..]);
      SplitJoin(pieces[1..]);
      assert ("," + tail)[1..] == tail;
      assert Split("," + tail) == [""] + pieces[1..];
      assert pieces[0] + "," + tail == pieces[0] + ("," + tail);
      SplitCommaFreePrefix(pieces[0], "," + tail);
      assert ([""] + pieces[1..])[1..] == pieces[1..];
      assert pieces[0] + "" == pieces[0];
      assert [pieces[0]] + pieces[1..] == pieces;
    }
  }

  /** A string holds a comma exactly when splitting it yields more than one piece;
      without a comma the one piece is the whole string. */
  lemma SplitHasComma(s: string)
    ensures ',' in s <==> |Split(s)| > 1
    ensures ',' !in s ==> Split(s) == [s]
  {
    JoinSplit(s);
    if ',' !in s {
      SplitCommaFreePrefix(s, "");
      assert s + "" == s;
    }
  }
}
