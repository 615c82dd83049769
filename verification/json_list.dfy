/** `json_encode` of a PHP list of strings, for strings it leaves unescaped,
    together with a reader for that output so the encoding can be checked to
    lose nothing. */
module JsonList {
  import opened Wrappers

  const Quote: char := '"'

  /** Printable ASCII that `json_encode` writes as itself (it escapes the
      quote, the backslash, the slash, control and non-ASCII characters). */
  predicate PlainChar(c: char) {
    ' ' <= c <= '~' && c != Quote && c != '\\' && c != '/'
  }

  predicate Plain(s: string) {
    forall i :: 0 <= i < |s| ==> PlainChar(s[i])
  }

  function Quoted(s: string): (q: string) {
    [Quote] + s + [Quote]
  }

  /** The items of a list, quoted and separated by commas. */
  function Items(xs: seq<string>): (body: string)
    decreases |xs|
  {
    if |xs| == 0 then ""
    else if |xs| == 1 then Quoted(xs[0])
    else Quoted(xs[0]) + "," + Items(xs[1..])
  }

  /** `json_encode($list)` for a list of plain strings. */
  function Encode(xs: seq<string>): (r: string)
    requires forall i :: 0 <= i < |xs| ==> Plain(xs[i])
    ensures |r| >= 2 && r[0] == '[' && r[|r| - 1] == ']'
  {
    "[" + Items(xs) + "]"
  }

  /** The first quote at or after position `i`, or `|s|` when there is none. */
  function NextQuote(s: string, i: nat): (j: nat)
    requires i <= |s|
    ensures i <= j <= |s|
    ensures j < |s| ==> s[j] == Quote
    ensures forall k :: i <= k < j ==> s[k] != Quote
    decreases |s| - i
  {
    if i == |s| || s[i] == Quote then i else NextQuote(s, i + 1)
  }

  /** Reads a non-empty comma-separated sequence of quoted strings. */
  function DecodeItems(s: string): (items: Option<seq<string>>)
    decreases |s|
  {
    if |s| == 0 || s[0] != Quote then None
    else
      var j := NextQuote(s, 1);
      if j == |s| then None
      else
        var rest := s[j + 1..];
        if |rest| == 0 then Some([s[1..j]])
        else if rest[0] != ',' then None
        else match DecodeItems(rest[1..])
          case None => None
          case Some(more) => Some([s[1..j]] + more)
  }

  /** Reads a JSON array of unescaped strings. */
  function Decode(s: string): (xs: Option<seq<string>>) {
    if |s| < 2 || s[0] != '[' || s[|s| - 1] != ']' then None
    else if |s| == 2 then Some([])
    else DecodeItems(s[1..|s| - 1])
  }

  lemma {:induction false} NextQuoteAfterPlain(x: string, rest: string)
    requires Plain(x)
    ensures NextQuote(Quoted(x) + rest, 1) == |x| + 1
  {
    var s := Quoted(x) + rest;
    var j := NextQuote(s, 1);
    assert forall k :: 1 <= k <= |x| ==> s[k] == x[k - 1];
    assert s[|x| + 1] == Quote;
  }

  /** Reading one quoted plain string that ends the input. */
  lemma DecodeLastItem(x: string)
    requires Plain(x)
    ensures DecodeItems(Quoted(x)) == Some([x])
  {
    var s := Quoted(x);
    NextQuoteAfterPlain(x, "");
    assert s == Quoted(x) + "";
    assert s[1..|x| + 1] == x;
  }

  /** Reading one quoted plain string followed by a comma and more items. */
  lemma DecodeNextItem(x: string, more: string)
    requires Plain(x)
    ensures DecodeItems(Quoted(x) + "," + more) ==
      match DecodeItems(more)
      case None => None
      case Some(ys) => Some([x] + ys)
  {
    var s := Quoted(x) + "," + more;
    NextQuoteAfterPlain(x, "," + more);
    assert s == Quoted(x) + ("," + more);
    assert s[1..|x| + 1] == x;
    assert s[|x| + 2..] == "," + more;
    assert s[|x| + 2..][1..] == more;
  }

  lemma {:induction false} DecodeItemsRoundTrip(xs: seq<string>)
    requires |xs| >= 1
    requires forall i :: 0 <= i < |xs| ==> Plain(xs[i])
    ensures DecodeItems(Items(xs)) == Some(xs)
    decreases |xs|
  {
    if |xs| == 1 {
      DecodeLastItem(xs[0]);
      assert Items(xs) == Quoted(xs[0]);
      assert [xs[0]] == xs;
    } else {
      DecodeItemsRoundTrip(xs[1..]);
      DecodeNextItem(xs[0], Items(xs[1..]));
      assert [xs[0]] + xs[1..] == xs;
    }
  }

  /** Reading back what was encoded yields the same list, in the same order. */
  lemma {:induction false} RoundTrip(xs: seq<string>)
    requires forall i :: 0 <= i < |xs| ==> Plain(xs[i])
    ensures Decode(Encode(xs)) == Some(xs)
  {
    var s := Encode(xs);
    if |xs| == 0 {
      assert s == "[]";
    } else {
      assert |Items(xs)| >= 2;
      assert s[1..|s| - 1] == Items(xs);
      DecodeItemsRoundTrip(xs);
    }
  }
}
