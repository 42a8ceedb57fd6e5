/**
 * The landing page's navigation bar (app/page.tsx): one link per section,
 * labelled by the section id with hyphens turned into spaces and the first
 * character upper-cased, and pointing at the id's anchor.
 */
module Nav {
  import opened Text

  const Sections: seq<string> := ["platform", "technology", "how-we-help", "canada", "partnerships", "team", "contact"]

  /** `section.replace(/-/g, " ").replace(/^./, str => str.toUpperCase())` */
  function NavLabel(id: string): string
  {
    CapitalizeFirst(ReplaceChar(id, '-', " "))
  }

  /** The link target: the raw id as a fragment. */
  function Href(id: string): string
  {
    "#" + id
  }

  /** Replacing each hyphen by one space keeps every position. */
  lemma {:induction false} HyphensToSpaces(s: string)
    ensures |ReplaceChar(s, '-', " ")| == |s|
    ensures forall i :: 0 <= i < |s| ==> ReplaceChar(s, '-', " ")[i] == if s[i] == '-' then ' ' else s[i]
  {
    if s != [] {
      HyphensToSpaces(s[1..]);
      var head := if s[0] == '-' then " " else [s[0]];
      assert ReplaceChar(s, '-', " ") == head + ReplaceChar(s[1..], '-', " ");
    }
  }

  /**
   * A label has its id's length; each character after the first is the id's,
   * with hyphens as spaces; the first is upper-cased.
   */
  lemma NavLabelShape(id: string)
    requires id != [] && id[0] != '-' && !IsLineTerminator(id[0])
    ensures |NavLabel(id)| == |id|
    ensures NavLabel(id)[0] == ToUpperChar(id[0])
    ensures forall i :: 1 <= i < |id| ==> NavLabel(id)[i] == if id[i] == '-' then ' ' else id[i]
    ensures '-' !in NavLabel(id)
  {
    HyphensToSpaces(id);
  }

  /** The link points at the untransformed id. */
  lemma HrefIsRawId(id: string)
    ensures Href(id)[0] == '#' && Href(id)[1..] == id
  {
  }

  /** A hyphen after a hyphen-free word becomes one space. */
  lemma HyphenJoin(a: string, b: string)
    requires '-' !in a
    ensures ReplaceChar(a + "-" + b, '-', " ") == a + " " + ReplaceChar(b, '-', " ")
  {
    ReplaceAppend(a + "-", b, '-', " ");
    ReplaceAppend(a, "-", '-', " ");
    ReplaceAbsent(a, '-', " ");
    assert "-"[1..] == [];
  }

  /** An id without hyphens is labelled by capitalising its first letter. */
  lemma PlainWord(id: string)
    requires id != [] && '-' !in id && 'a' <= id[0] <= 'z'
    ensures NavLabel(id) == [ToUpperChar(id[0])] + id[1..]
  {
    ReplaceAbsent(id, '-', " ");
  }

  /** Three hyphen-joined words are spaced apart. */
  lemma ThreeWords(a: string, b: string, c: string)
    requires '-' !in a && '-' !in b && '-' !in c
    ensures ReplaceChar(a + "-" + b + "-" + c, '-', " ") == a + " " + b + " " + c
  {
    assert a + "-" + b + "-" + c == a + "-" + (b + "-" + c);
    HyphenJoin(a, b + "-" + c);
    HyphenJoin(b, c);
    ReplaceAbsent(c, '-', " ");
  }

  /** "how-we-help" is shown as "How we help": only the first word is capitalised. */
  lemma HowWeHelpLabel()
    ensures NavLabel("how-we-help") == "How we help"
  {
    assert "how-we-help" == "how" + "-" + "we" + "-" + "help";
    ThreeWords("how", "we", "help");
    assert "how" + " " + "we" + " " + "help" == "how we help";
    HowWeHelpCapitalised();
  }

  lemma HowWeHelpCapitalised()
    ensures CapitalizeFirst("how we help") == "How we help"
  {
    assert "how we help"[1..] == "ow we help";
  }
}
