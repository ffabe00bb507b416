/**
 * The text the app shell derives from its constants: the contact details of
 * the contact modal and the paragraphs of the about screen.
 */
module Content {
  import opened JsString
  import Constants

  const ContactEmail := "hello@ramanadesign.tech"
  /** "+1 (555) 123-4567", written as its four groups. */
  const ContactPhone := "+1 (" + "555) " + "123-" + "4567"

  // ---------------------------------------------------------------------
  // Paragraphs

  /** A line that `trim()` empties, which `paragraph.trim() && …` renders as nothing. */
  predicate Blank(line: string) {
    Trim(line) == ""
  }

  /** The lines that are not blank, in their order. */
  function NonBlankLines(lines: seq<string>): seq<string>
    decreases |lines|
  {
    if lines == [] then []
    else if !Blank(lines[0]) then [lines[0]] + NonBlankLines(lines[1..])
    else NonBlankLines(lines[1..])
  }

  /** Only lines of the input are kept, and none of them is blank. */
  lemma {:induction false} NonBlankLinesKept(lines: seq<string>)
    ensures |NonBlankLines(lines)| <= |lines|
    ensures forall line :: line in NonBlankLines(lines) ==> line in lines && !Blank(line)
    decreases |lines|
  {
    if lines != [] {
      NonBlankLinesKept(lines[1..]);
    }
  }

  /** Every non-blank line of the input is kept. */
  lemma {:induction false} NonBlankLinesComplete(lines: seq<string>)
    ensures forall line :: line in lines && !Blank(line) ==> line in NonBlankLines(lines)
    decreases |lines|
  {
    if lines != [] {
      NonBlankLinesComplete(lines[1..]);
      assert forall line :: line in lines ==> line == lines[0] || line in lines[1..];
    }
  }

  /** Filtering distributes over concatenation, so the kept lines stay in their order. */
  lemma {:induction false} NonBlankLinesAppend(a: seq<string>, b: seq<string>)
    ensures NonBlankLines(a + b) == NonBlankLines(a) + NonBlankLines(b)
    decreases |a|
  {
    if a == [] {
      assert a + b == b;
    } else {
      assert (a + b)[0] == a[0] && (a + b)[1..] == a[1..] + b;
      NonBlankLinesAppend(a[1..], b);
    }
  }

  /** `ABOUT_TEXT.split('\n')`, keeping the non-blank lines. */
  function Paragraphs(text: string): seq<string> {
    NonBlankLines(Split(text, '\n'))
  }

  /** The about text's layout: each paragraph on its own line, with an empty line around and between them. */
  function AboutLayout(l1: string, l2: string, l3: string): string {
    "\n" + l1 + "\n\n" + l2 + "\n\n" + l3 + "\n"
  }

  /** The lines of the layout: the three paragraphs, each after an empty line, and a last empty line. */
  function AboutLines(l1: string, l2: string, l3: string): seq<string> {
    [""] + ([l1] + ([""] + ([l2] + ([""] + ([l3] + [""])))))
  }

  /** A line break, a single line and a line break split into an empty line, the line, and what follows. */
  lemma SplitBetweenBreaks(l: string, rest: string)
    requires '\n' !in l
    ensures Split("\n" + l + "\n" + rest, '\n') == [""] + ([l] + Split(rest, '\n'))
  {
    var nl := '\n';
    assert "\n" + l + "\n" + rest == "" + [nl] + (l + [nl] + rest);
    SplitAround("", nl, l + [nl] + rest);
    SplitAround(l, nl, rest);
    SplitNoSeparator(l, nl);
    SplitNoSeparator("", nl);
  }

  /** Three single-line paragraphs laid out so split into seven lines, every other one empty. */
  lemma SplitAboutLayout(l1: string, l2: string, l3: string)
    requires '\n' !in l1 && '\n' !in l2 && '\n' !in l3
    ensures Split(AboutLayout(l1, l2, l3), '\n') == AboutLines(l1, l2, l3)
    ensures AboutLines(l1, l2, l3) == ["", l1, "", l2, "", l3, ""]
  {
    var r3 := "\n" + l3 + "\n" + "";
    var r2 := "\n" + l2 + "\n" + r3;
    var r1 := "\n" + l1 + "\n" + r2;
    assert AboutLayout(l1, l2, l3) == r1;
    SplitNoSeparator("", '\n');
    SplitBetweenBreaks(l3, "");
    SplitBetweenBreaks(l2, r3);
    SplitBetweenBreaks(l1, r2);
  }

  /** A line that starts with a non-whitespace character is not blank. */
  lemma StartsWithTextNotBlank(line: string)
    requires line != [] && !IsWhitespace(line[0])
    ensures !Blank(line)
  {
    TrimEmptyIff(line);
  }

  /** A line in front of others is kept exactly when it is not blank. */
  lemma NonBlankLinesCons(line: string, rest: seq<string>)
    ensures NonBlankLines([line] + rest) == (if Blank(line) then [] else [line]) + NonBlankLines(rest)
  {
    assert ([line] + rest)[0] == line && ([line] + rest)[1..] == rest;
  }

  /** An empty line followed by a non-blank one keeps just the non-blank line. */
  lemma KeepsLineAfterBlank(line: string, rest: seq<string>)
    requires !Blank(line)
    ensures NonBlankLines([""] + ([line] + rest)) == [line] + NonBlankLines(rest)
  {
    assert Blank("");
    NonBlankLinesCons("", [line] + rest);
    NonBlankLinesCons(line, rest);
  }

  /** Of three non-blank lines separated by empty ones, exactly the three are kept. */
  lemma KeepsLinesBetweenBlanks(l1: string, l2: string, l3: string)
    requires !Blank(l1) && !Blank(l2) && !Blank(l3)
    ensures NonBlankLines(AboutLines(l1, l2, l3)) == [l1] + ([l2] + ([l3] + []))
  {
    var last: seq<string> := [""];
    assert Blank("");
    NonBlankLinesCons("", []);
    assert last == [""] + [];
    KeepsLineAfterBlank(l3, last);
    KeepsLineAfterBlank(l2, [""] + ([l3] + last));
    KeepsLineAfterBlank(l1, [""] + ([l2] + ([""] + ([l3] + last))));
  }

  /** Three single-line, non-blank paragraphs are exactly the paragraphs of their layout. */
  lemma AboutLayoutParagraphs(l1: string, l2: string, l3: string)
    requires '\n' !in l1 && '\n' !in l2 && '\n' !in l3
    requires !Blank(l1) && !Blank(l2) && !Blank(l3)
    ensures Paragraphs(AboutLayout(l1, l2, l3)) == [l1, l2, l3]
  {
    SplitAboutLayout(l1, l2, l3);
    KeepsLinesBetweenBlanks(l1, l2, l3);
    assert [l1] + ([l2] + ([l3] + [])) == [l1, l2, l3];
  }

  /** The about screen has exactly the three paragraphs of the about text, in order. */
  lemma AboutTextHasThreeParagraphs()
    ensures Paragraphs(Constants.AboutText)
      == [Constants.AboutLine1, Constants.AboutLine2, Constants.AboutLine3]
  {
    Constants.AboutLine1IsSingleLine();
    Constants.AboutLine2IsSingleLine();
    Constants.AboutLine3IsSingleLine();
    StartsWithTextNotBlank(Constants.AboutLine1);
    StartsWithTextNotBlank(Constants.AboutLine2);
    StartsWithTextNotBlank(Constants.AboutLine3);
    assert Constants.AboutText
      == AboutLayout(Constants.AboutLine1, Constants.AboutLine2, Constants.AboutLine3);
    AboutLayoutParagraphs(Constants.AboutLine1, Constants.AboutLine2, Constants.AboutLine3);
  }

  // ---------------------------------------------------------------------
  // The phone link

  /** The `href` of the phone field: `tel:` and the number's digits. */
  function TelHref(phone: string): (href: string)
    ensures |href| >= 4 && href[..4] == "tel:" && AllDigits(href[4..])
  {
    "tel:" + DigitsOnly(phone)
  }

  /** Dropping the non-digits of four parts is dropping them from each part. */
  lemma DigitsOnlyOfParts(a: string, b: string, c: string, d: string)
    ensures DigitsOnly(a + b + c + d) == DigitsOnly(a) + DigitsOnly(b) + DigitsOnly(c) + DigitsOnly(d)
  {
    DigitsOnlyAppend(a + b + c, d);
    DigitsOnlyAppend(a + b, c);
    DigitsOnlyAppend(a, b);
  }

  lemma CountryCodeDigits() ensures DigitsOnly("+1 (") == "1" { }
  lemma AreaCodeDigits() ensures DigitsOnly("555) ") == "555" { }
  lemma ExchangeDigits() ensures DigitsOnly("123-") == "123" { }
  lemma LineNumberDigits() ensures DigitsOnly("4567") == "4567" { }

  /** The phone link dials the number's digits, in order: `tel:15551234567`. */
  lemma TelLinkDigits()
    ensures TelHref(ContactPhone) == "tel:15551234567"
  {
    DigitsOnlyOfParts("+1 (", "555) ", "123-", "4567");
    CountryCodeDigits();
    AreaCodeDigits();
    ExchangeDigits();
    LineNumberDigits();
  }
}
