/** The imported-email text: `split(/[,;\n]/)`, `trim`, dropping empty pieces, and rejoining with
    the selected delimiter. */
module EmailList {
  import opened Seqs

  predicate IsDelimiter(c: char) {
    c == ',' || c == ';' || c == '\n'
  }

  /** The characters `String.prototype.trim` removes: ECMAScript WhiteSpace and LineTerminator. */
  predicate IsWhitespace(c: char) {
    || c == '\t' || c == '\n' || c == '\U{000B}' || c == '\U{000C}' || c == '\r' || c == ' '
    || c == '\U{00A0}' || c == '\U{1680}' || ('\U{2000}' <= c <= '\U{200A}')
    || c == '\U{2028}' || c == '\U{2029}' || c == '\U{202F}' || c == '\U{205F}'
    || c == '\U{3000}' || c == '\U{FEFF}'
  }

  predicate NoDelimiter(s: string) {
    forall c :: c in s ==> !IsDelimiter(c)
  }

  predicate AllWhitespace(s: string) {
    forall i :: 0 <= i < |s| ==> IsWhitespace(s[i])
  }

  /** `s.split(/[,;\n]/)`: the pieces between delimiter characters; never empty. */
  function Split(s: string): (r: seq<string>)
    ensures |r| >= 1
    ensures forall k :: 0 <= k < |r| ==> NoDelimiter(r[k])
  {
    if s == [] then [""]
    else if IsDelimiter(s[0]) then [""] + Split(s[1..])
    else
      var rest := Split(s[1..]);
      [[s[0]] + rest[0]] + rest[1..]
  }

  function TrimStart(s: string): (r: string)
    ensures |r| <= |s| && r == s[|s| - |r|..]
    ensures forall i :: 0 <= i < |s| - |r| ==> IsWhitespace(s[i])
    ensures r != [] ==> !IsWhitespace(r[0])
  {
    if s != [] && IsWhitespace(s[0]) then TrimStart(s[1..]) else s
  }

  function TrimEnd(s: string): (r: string)
    ensures |r| <= |s| && r == s[..|r|]
    ensures forall i :: |r| <= i < |s| ==> IsWhitespace(s[i])
    ensures r != [] ==> !IsWhitespace(r[|r| - 1])
  {
    if s != [] && IsWhitespace(s[|s| - 1]) then TrimEnd(s[..|s| - 1]) else s
  }

  /** `r` is the stretch of `s` starting at `i`, with only whitespace before and after it. */
  predicate TrimmedAt(s: string, r: string, i: int) {
    0 <= i <= |s| - |r| && r == s[i..i + |r|] && AllWhitespace(s[..i]) && AllWhitespace(s[i + |r|..])
  }

  /** `s.trim()`: the contiguous middle of `s` between a whitespace prefix and a whitespace
      suffix, starting and ending with a non-whitespace character. */
  function Trim(s: string): (r: string)
    ensures exists i :: TrimmedAt(s, r, i)
    ensures r != [] ==> !IsWhitespace(r[0]) && !IsWhitespace(r[|r| - 1])
    ensures forall c :: c in r ==> c in s
    ensures r == [] <==> AllWhitespace(s)
  {
    TrimmedFacts(s);
    var r := TrimEnd(TrimStart(s));
    assert TrimmedAt(s, r, |s| - |TrimStart(s)|);
    r
  }

  /** Trimming the start and then the end leaves a stretch of the original between whitespace. */
  lemma TrimIsSlice(s: string, t: string, r: string)
    requires |t| <= |s| && t == s[|s| - |t|..] && AllWhitespace(s[..|s| - |t|])
    requires |r| <= |t| && r == t[..|r|] && AllWhitespace(t[|r|..])
    ensures TrimmedAt(s, r, |s| - |t|)
  {
    var i := |s| - |t|;
    var mid := s[i..i + |r|];
    forall k | 0 <= k < |r| ensures r[k] == mid[k] {
      assert r[k] == t[k] == s[i + k];
    }
    assert r == mid;
    var suffix := s[i + |r|..];
    forall k | 0 <= k < |suffix| ensures IsWhitespace(suffix[k]) {
      assert suffix[k] == t[|r|..][k];
    }
  }

  /** The facts `Trim` promises, about the composition it computes. */
  lemma {:induction false} TrimmedFacts(s: string)
    ensures var r := TrimEnd(TrimStart(s));
      && TrimmedAt(s, r, |s| - |TrimStart(s)|)
      && (r != [] ==> !IsWhitespace(r[0]) && !IsWhitespace(r[|r| - 1]))
      && (forall c :: c in r ==> c in s)
      && (r == [] <==> AllWhitespace(s))
  {
    var t := TrimStart(s);
    var r := TrimEnd(t);
    var prefix, tail := s[..|s| - |t|], t[|r|..];
    forall k | 0 <= k < |prefix| ensures IsWhitespace(prefix[k]) {
      assert prefix[k] == s[k];
    }
    forall k | 0 <= k < |tail| ensures IsWhitespace(tail[k]) {
      assert tail[k] == t[|r| + k];
    }
    TrimIsSlice(s, t, r);
    assert forall c :: c in r ==> c in t;
    assert forall c :: c in t ==> c in s;
    if r == [] {
      assert t == [];
    } else {
      assert r[0] == t[0];
    }
  }

  /** What `trim` leaves when it leaves anything: no whitespace at either end. */
  predicate IsTrimmedNonEmpty(e: string) {
    e != [] && !IsWhitespace(e[0]) && !IsWhitespace(e[|e| - 1])
  }

  /** A list entry that survives reformatting unchanged: non-empty, trimmed, delimiter-free. */
  predicate IsAddress(e: string) {
    IsTrimmedNonEmpty(e) && NoDelimiter(e)
  }

  /** `.map(e => e.trim()).filter(e => e)` over the pieces. */
  function Clean(pieces: seq<string>): seq<string> {
    if pieces == [] then []
    else
      var t := Trim(pieces[0]);
      (if t == [] then [] else [t]) + Clean(pieces[1..])
  }

  /** The addresses found in a text. */
  function Tokens(text: string): (r: seq<string>)
    ensures forall k :: 0 <= k < |r| ==> IsAddress(r[k])
  {
    CleanYieldsAddresses(Split(text));
    Clean(Split(text))
  }

  /** Cleaning delimiter-free pieces leaves addresses only. */
  lemma {:induction false} CleanYieldsAddresses(pieces: seq<string>)
    requires forall k :: 0 <= k < |pieces| ==> NoDelimiter(pieces[k])
    ensures forall k :: 0 <= k < |Clean(pieces)| ==> IsAddress(Clean(pieces)[k])
  {
    if pieces != [] {
      CleanYieldsAddresses(pieces[1..]);
    }
  }

  /** `es.join(sep)` */
  function Join(es: seq<string>, sep: string): string {
    if es == [] then ""
    else if |es| == 1 then es[0]
    else es[0] + sep + Join(es[1..], sep)
  }

  /** The separator for a delimiter name; an unknown name falls back to the comma form. */
  function Separator(delimiter: string): (sep: string)
    ensures sep in {", ", "; ", "\n"}
    ensures delimiter == "semicolon" ==> sep == "; "
    ensures delimiter == "newline" ==> sep == "\n"
    ensures delimiter != "semicolon" && delimiter != "newline" ==> sep == ", "
  {
    match delimiter
    case "comma" => ", "
    case "semicolon" => "; "
    case "newline" => "\n"
    case _ => ", "
  }

  /** The body of `handleDelimiterChange`: re-split the text and rejoin with the new delimiter. */
  function Reformat(text: string, delimiter: string): string {
    Join(Tokens(text), Separator(delimiter))
  }

  /** `text.split(/[,;\n]/).filter(e => e.trim()).length`: the "email(s) found" count. */
  function EmailCount(text: string): nat {
    |Filter(Split(text), HasContent)|
  }

  predicate HasContent(piece: string) {
    Trim(piece) != []
  }

  // ---------------------------------------------------------------------------------------------

  lemma {:induction false} SplitWithoutDelimiter(s: string)
    requires NoDelimiter(s)
    ensures Split(s) == [s]
  {
    if s != [] {
      assert s[0] in s;
      SplitWithoutDelimiter(s[1..]);
      assert [s[0]] + s[1..] == s;
    }
  }

  /** A delimiter after a delimiter-free prefix ends the first piece. */
  lemma {:induction false} SplitAtDelimiter(a: string, c: char, b: string)
    requires NoDelimiter(a) && IsDelimiter(c)
    ensures Split(a + [c] + b) == [a] + Split(b)
  {
    if a == [] {
      assert a + [c] + b == [c] + b;
      assert ([c] + b)[1..] == b;
    } else {
      var s := a + [c] + b;
      assert s[0] == a[0] && s[1..] == a[1..] + [c] + b;
      SplitAtDelimiter(a[1..], c, b);
      assert [a[0]] + a[1..] == a;
    }
  }

  lemma {:induction false} TrimStartAfterWhitespace(pad: string, e: string)
    requires AllWhitespace(pad)
    ensures TrimStart(pad + e) == TrimStart(e)
  {
    if pad == [] {
      assert pad + e == e;
    } else {
      assert (pad + e)[0] == pad[0];
      assert (pad + e)[1..] == pad[1..] + e;
      TrimStartAfterWhitespace(pad[1..], e);
    }
  }

  /** Leading whitespace before an address is what `trim` removes, and nothing more. */
  lemma {:induction false} PaddedAddressTrims(pad: string, e: string)
    requires AllWhitespace(pad) && IsAddress(e)
    ensures Trim(pad + e) == e
  {
    TrimStartAfterWhitespace(pad, e);
    assert TrimStart(e) == e;
    assert TrimEnd(e) == e;
  }

  /** The separator, its first character a delimiter, the rest whitespace that is no delimiter. */
  lemma {:induction false} SeparatorShape(delimiter: string)
    ensures IsSeparator(Separator(delimiter))
  {
  }

  /** A separator shaped like the three the page offers: a delimiter, then whitespace. */
  predicate IsSeparator(sep: string) {
    |sep| >= 1 && IsDelimiter(sep[0]) && AllWhitespace(sep[1..]) && NoDelimiter(sep[1..])
  }

  lemma {:induction false} CleanCons(p: string, ps: seq<string>)
    ensures Clean([p] + ps) == (if Trim(p) == [] then [] else [Trim(p)]) + Clean(ps)
  {
    assert ([p] + ps)[1..] == ps;
  }

  /** The first piece of `lead + e + sep + ...` is `lead + e`, which trims to `e`. */
  lemma {:induction false} FirstPiece(lead: string, e: string, sep: string, rest: string)
    requires AllWhitespace(lead) && NoDelimiter(lead) && IsAddress(e) && IsSeparator(sep)
    ensures Split(lead + (e + sep + rest)) == [lead + e] + Split(sep[1..] + rest)
    ensures Trim(lead + e) == e
  {
    var a := lead + e;
    assert NoDelimiter(a);
    assert sep == [sep[0]] + sep[1..];
    assert lead + (e + sep + rest) == a + [sep[0]] + (sep[1..] + rest);
    SplitAtDelimiter(a, sep[0], sep[1..] + rest);
    PaddedAddressTrims(lead, e);
  }

  lemma {:induction false} LeadAlone(lead: string)
    requires AllWhitespace(lead) && NoDelimiter(lead)
    ensures Clean(Split(lead)) == []
  {
    SplitWithoutDelimiter(lead);
    assert Trim(lead) == [];
    assert Clean([lead]) == [];
  }

  lemma {:induction false} LeadAndLast(lead: string, e: string)
    requires AllWhitespace(lead) && NoDelimiter(lead) && IsAddress(e)
    ensures Clean(Split(lead + e)) == [e]
  {
    var a := lead + e;
    assert Split(a) == [a] by {
      assert NoDelimiter(a);
      SplitWithoutDelimiter(a);
    }
    assert Trim(a) == e by {
      PaddedAddressTrims(lead, e);
    }
    assert Clean([a]) == [e] by {
      CleanCons(a, []);
      assert [a] + [] == [a];
    }
  }

  lemma {:induction false} TokensOfPaddedJoin(lead: string, es: seq<string>, sep: string)
    decreases es
    requires AllWhitespace(lead) && NoDelimiter(lead) && IsSeparator(sep)
    requires forall k :: 0 <= k < |es| ==> IsAddress(es[k])
    ensures Clean(Split(lead + Join(es, sep))) == es
  {
    if es == [] {
      assert lead + Join(es, sep) == lead;
      LeadAlone(lead);
    } else if |es| == 1 {
      assert lead + Join(es, sep) == lead + es[0];
      LeadAndLast(lead, es[0]);
    } else {
      TokensOfPaddedJoin(sep[1..], es[1..], sep);
      JoinStep(lead, es, sep);
    }
  }

  lemma {:induction false} JoinStep(lead: string, es: seq<string>, sep: string)
    requires AllWhitespace(lead) && NoDelimiter(lead) && IsSeparator(sep)
    requires |es| >= 2 && IsAddress(es[0])
    requires Clean(Split(sep[1..] + Join(es[1..], sep))) == es[1..]
    ensures Clean(Split(lead + Join(es, sep))) == es
  {
    var rest := Join(es[1..], sep);
    var a := lead + es[0];
    var tail := Split(sep[1..] + rest);
    assert Split(lead + Join(es, sep)) == [a] + tail by {
      JoinUnfold(es, sep);
      FirstPiece(lead, es[0], sep, rest);
    }
    assert Clean([a] + tail) == [es[0]] + Clean(tail) by {
      FirstPiece(lead, es[0], sep, rest);
      CleanCons(a, tail);
    }
    HeadTail(es);
  }

  lemma {:induction false} JoinUnfold(es: seq<string>, sep: string)
    requires |es| >= 2
    ensures Join(es, sep) == es[0] + sep + Join(es[1..], sep)
  {
  }

  /** A list of addresses joined with any of the three separators splits back into that list. */
  lemma {:induction false} TokensOfJoin(es: seq<string>, delimiter: string)
    requires forall k :: 0 <= k < |es| ==> IsAddress(es[k])
    ensures Tokens(Join(es, Separator(delimiter))) == es
  {
    var sep := Separator(delimiter);
    SeparatorShape(delimiter);
    TokensOfPaddedJoin("", es, sep);
    assert "" + Join(es, sep) == Join(es, sep);
  }

  /** Rejoining an address list under another delimiter is the same list joined that way. */
  lemma {:induction false} ReformatJoin(es: seq<string>, from: string, to: string)
    requires forall k :: 0 <= k < |es| ==> IsAddress(es[k])
    ensures Reformat(Join(es, Separator(from)), to) == Join(es, Separator(to))
  {
    TokensOfJoin(es, from);
  }

  /** Reformatting forgets the previous delimiter: only the last one chosen matters. */
  lemma {:induction false} ReformatTwice(text: string, first: string, second: string)
    ensures Reformat(Reformat(text, first), second) == Reformat(text, second)
  {
    TokensOfJoin(Tokens(text), first);
  }

  /** Reformatting with the same delimiter again changes nothing. */
  lemma {:induction false} ReformatIdempotent(text: string, delimiter: string)
    ensures Reformat(Reformat(text, delimiter), delimiter) == Reformat(text, delimiter)
  {
    ReformatTwice(text, delimiter, delimiter);
  }

  lemma {:induction false} CountIsCleanLength(pieces: seq<string>)
    ensures |Filter(pieces, HasContent)| == |Clean(pieces)|
  {
    if pieces != [] {
      CountIsCleanLength(pieces[1..]);
    }
  }

  /** The displayed count is the number of addresses the text holds, and reformatting keeps it. */
  lemma {:induction false} EmailCountIsTokens(text: string, delimiter: string)
    ensures EmailCount(text) == |Tokens(text)|
    ensures EmailCount(Reformat(text, delimiter)) == EmailCount(text)
  {
    CountIsCleanLength(Split(text));
    CountIsCleanLength(Split(Reformat(text, delimiter)));
    TokensOfJoin(Tokens(text), delimiter);
  }
}
