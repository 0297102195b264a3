/**
 * The two repeatable command-line flag types of the controller's entry point
 * (main.go): `stringSlice`, which collects each occurrence of a flag, and
 * `commaSeparatedStringSlice`, which collects the comma-separated pieces of
 * each occurrence. Both `Set` methods append to the receiver in place and
 * never fail.
 */
module Flags {
  import opened Results
  import opened Strings

  /** The pieces of `pieces` that are not empty, in their original order. */
  function NonEmptyPieces(pieces: seq<string>): (r: seq<string>)
    ensures forall i :: 0 <= i < |r| ==> r[i] != "" && r[i] in pieces
    ensures |r| <= |pieces|
    decreases |pieces|
  {
    if |pieces| == 0 then []
    else (if pieces[0] == "" then [] else [pieces[0]]) + NonEmptyPieces(pieces[1..])
  }

  lemma {:induction false} NonEmptyPiecesAppend(a: seq<string>, b: seq<string>)
    ensures NonEmptyPieces(a + b) == NonEmptyPieces(a) + NonEmptyPieces(b)
    decreases |a|
  {
    if |a| == 0 {
      assert a + b == b;
    } else {
      assert (a + b)[0] == a[0];
      assert (a + b)[1..] == a[1..] + b;
      NonEmptyPiecesAppend(a[1..], b);
    }
  }

  /** What one occurrence of a comma-separated flag contributes: the non-empty pieces of `value`. */
  function CommaPieces(value: string): (r: seq<string>)
    ensures forall i :: 0 <= i < |r| ==> r[i] != "" && ',' !in r[i]
  {
    NonEmptyPieces(Split(value, ','))
  }

  /**
   * A comma splits the value into what comes before it and what comes after it;
   * in particular leading, trailing and repeated commas contribute nothing.
   */
  lemma CommaPiecesConcat(a: string, b: string)
    ensures CommaPieces(a + "," + b) == CommaPieces(a) + CommaPieces(b)
  {
    SplitAround(a, ',', b);
    NonEmptyPiecesAppend(Split(a, ','), Split(b, ','));
  }

  /** A value written as non-empty, comma-free items joined by commas yields exactly those items. */
  lemma {:induction false} CommaPiecesRoundTrip(items: seq<string>)
    requires forall i :: 0 <= i < |items| ==> items[i] != "" && ',' !in items[i]
    ensures CommaPieces(Join(items, ',')) == items
    decreases |items|
  {
    if |items| == 1 {
      SplitNoSeparator(items[0], ',');
    } else if |items| > 1 {
      CommaPiecesRoundTrip(items[1..]);
      CommaPiecesConcat(items[0], Join(items[1..], ','));
      SplitNoSeparator(items[0], ',');
      assert [items[0]] + items[1..] == items;
    }
  }

  /** `stringSlice`: every occurrence of the flag is kept verbatim. */
  class StringSlice {
    var items: seq<string>

    constructor ()
      ensures items == []
    {
      items := [];
    }

    /** Appends `value` unchanged as one element, even when it is empty or holds commas. */
    method Set(value: string) returns (err: Option<string>)
      modifies this
      ensures items == old(items) + [value]
      ensures err == None
    {
      items := items + [value];
      err := None;
    }
  }

  /** `commaSeparatedStringSlice`: every occurrence contributes its comma-separated pieces. */
  class CommaSeparatedStringSlice {
    var items: seq<string>

    constructor ()
      ensures items == []
    {
      items := [];
    }

    /** Appends the non-empty comma-separated pieces of `value`, in order, after the existing items. */
    method Set(value: string) returns (err: Option<string>)
      modifies this
      ensures items == old(items) + CommaPieces(value)
      ensures err == None
    {
      var pieces := Split(value, ',');
      var i := 0;
      while i < |pieces|
        invariant 0 <= i <= |pieces|
        invariant items == old(items) + NonEmptyPieces(pieces[..i])
      {
        var v := pieces[i];
        assert pieces[..i + 1] == pieces[..i] + [v];
        NonEmptyPiecesAppend(pieces[..i], [v]);
        i := i + 1;
        if v == "" {
          continue;
        }
        items := items + [v];
      }
      assert pieces[..i] == pieces;
      err := None;
    }
  }
}
