/** The fixed table of substituent fragments: a short tag for each group and
    its line notation, where `*` marks the attachment point. The table is an
    insertion-ordered dictionary, so it is kept here as a sequence of
    (tag, fragment) entries in declaration order. */
module FragmentTable {

  import opened Toolkit

  /** The table as declared (enumerator.py:8-21). The tags "2‑Pyr" and
      "4‑Pyr" are written with U+2011 NON-BREAKING HYPHEN, not an ASCII
      hyphen-minus, exactly as in the source. */
  const Table: seq<(string, string)> := [
    ("F", "*F"), ("Cl", "*Cl"), ("Br", "*Br"),
    ("Me", "*C"), ("Et", "*CC"), ("iPr", "*C(C)C"), ("tBu", "*C(C)(C)C"),
    ("CF3", "*C(F)(F)F"), ("OCF3", "*OC(F)(F)F"),
    ("OH", "*O"), ("OMe", "*OC"), ("OEt", "*OCC"), ("CF2H", "*C(F)FH"),
    ("NH2", "*N"), ("NMe2", "*N(C)C"), ("CONH2", "*C(=O)N"),
    ("SO2NH2", "*S(=O)(=O)N"),
    ("Acryl", "*C(=O)C=C"), ("ClAc", "*C(=O)CCl"), ("SulfonylF", "*S(=O)(=O)F"),
    ("Boro", "*B(O)O"), ("Isothio", "*N=C=S"), ("Ald", "*C=O"),
    ("Azide", "*N=[N+]=[N-]"), ("Alkyne", "*C#C"), ("Diazirine", "*C1N=N1"),
    ("Norborn", "*C1CCCC2CC1C2"),
    ("2\U{2011}Pyr", "*c1ncccc1"), ("4\U{2011}Pyr", "*c1ccncc1"), ("Imid", "*c1ncc[nH]1"),
    ("Thiaz", "*c1nccs1")
  ]

  /** `list(FG)`: the tags in table order. */
  function Tags(): (r: seq<string>)
    ensures |r| == |Table|
    ensures forall i :: 0 <= i < |r| ==> r[i] == Table[i].0
  {
    seq(|Table|, i requires 0 <= i < |Table| => Table[i].0)
  }

  predicate Distinct(s: seq<string>)
  {
    forall i, j :: 0 <= i < j < |s| ==> s[i] != s[j]
  }

  /** A fragment has exactly one attachment point, and it comes first. */
  predicate OneAttachment(frag: string)
  {
    |frag| > 0 && frag[0] == '*' && forall k :: 0 < k < |frag| ==> frag[k] != '*'
  }

  /** Number of occurrences of `c` in `s`. */
  function Occurrences(s: string, c: char): nat
  {
    if s == [] then 0 else (if s[0] == c then 1 else 0) + Occurrences(s[1..], c)
  }

  /** `FG[tag]`: the fragment of `tag`, `None` where Python raises KeyError.
      Tags are compared as exact strings. */
  function Lookup(tag: string): Option<string>
  {
    FindFrom(Table, tag, 0)
  }

  /** A tag is found exactly when it is one of the table's tags, and what is
      found is that entry's fragment. */
  lemma LookupMatchesTags(tag: string)
    ensures Lookup(tag).Some? <==> tag in Tags()
    ensures Lookup(tag).Some? ==> exists i :: 0 <= i < |Table| && Table[i] == (tag, Lookup(tag).value)
  {
    FindFromFinds(Table, tag, 0);
  }

  /** A scan of an association list from entry `from` on: the value of the
      first entry carrying `tag`. */
  function FindFrom(entries: seq<(string, string)>, tag: string, from: nat): Option<string>
    requires from <= |entries|
    decreases |entries| - from
  {
    if from == |entries| then None
    else if entries[from].0 == tag then Some(entries[from].1)
    else FindFrom(entries, tag, from + 1)
  }

  /** The scan finds a tag exactly when one of the scanned entries carries
      it, and then yields that entry's value. */
  lemma {:induction false} FindFromFinds(entries: seq<(string, string)>, tag: string, from: nat)
    requires from <= |entries|
    ensures FindFrom(entries, tag, from).Some? <==> exists i :: from <= i < |entries| && entries[i].0 == tag
    ensures FindFrom(entries, tag, from).Some? ==>
              exists i :: from <= i < |entries| && entries[i] == (tag, FindFrom(entries, tag, from).value)
    decreases |entries| - from
  {
    if from < |entries| && entries[from].0 != tag {
      FindFromFinds(entries, tag, from + 1);
    }
  }

  /** The table has 31 entries (its comment says 30) and no tag twice, so it
      is a faithful ordered dictionary. */
  lemma TableHasDistinctTags()
    ensures |Tags()| == 31
    ensures Distinct(Tags())
  {
    forall i, j | 0 <= i < j < |Table|
      ensures Table[i].0 != Table[j].0
    {
    }
  }

  /** Every fragment begins with `*` and holds no other `*`. */
  lemma EveryFragmentHasOneAttachment()
    ensures forall i :: 0 <= i < |Table| ==> OneAttachment(Table[i].1)
  {
  }

  /** A fragment with one leading attachment point has exactly one `*`. */
  lemma {:induction false} OneAttachmentCountsOne(frag: string)
    requires OneAttachment(frag)
    ensures Occurrences(frag, '*') == 1
  {
    NoOccurrences(frag[1..], '*');
  }

  lemma {:induction false} NoOccurrences(s: string, c: char)
    requires forall k :: 0 <= k < |s| ==> s[k] != c
    ensures Occurrences(s, c) == 0
  {
    if s != [] {
      NoOccurrences(s[1..], c);
    }
  }

  /** Looking up a tag of the table yields that entry's fragment. */
  lemma {:induction false} LookupTableEntry(i: nat)
    requires i < |Table|
    ensures Lookup(Table[i].0) == Some(Table[i].1)
  {
    TableHasDistinctTags();
    LookupMatchesTags(Table[i].0);
    var r := Lookup(Table[i].0);
    var j :| 0 <= j < |Table| && Table[j] == (Table[i].0, r.value);
    assert Tags()[i] == Tags()[j];
  }

  /** No tag of the table is spelt "2-Pyr" or "4-Pyr" with an ASCII
      hyphen-minus. */
  lemma NoAsciiPyridylTag()
    ensures forall i :: 0 <= i < |Table| ==> Table[i].0 != "2-Pyr" && Table[i].0 != "4-Pyr"
  {
    forall i | 0 <= i < |Table|
      ensures Table[i].0 != "2-Pyr" && Table[i].0 != "4-Pyr"
    {
      assert |Table[i].0| != 5 || Table[i].0[1] != '-';
    }
  }

  /** Tags are matched exactly: the pyridyl tags spelt with an ASCII
      hyphen-minus are not in the table. */
  lemma AsciiHyphenIsNotATag()
    ensures Lookup("2-Pyr") == None && Lookup("4-Pyr") == None
  {
    NoAsciiPyridylTag();
    FindFromFinds(Table, "2-Pyr", 0);
    FindFromFinds(Table, "4-Pyr", 0);
  }

  /** The pyridyl tags as the table spells them, with U+2011, are found. */
  lemma PyridylTagsFound()
    ensures Lookup("2\U{2011}Pyr") == Some("*c1ncccc1")
    ensures Lookup("4\U{2011}Pyr") == Some("*c1ccncc1")
  {
    LookupTableEntry(27);
    LookupTableEntry(28);
  }
}
