/** `DocumentManager`: stripping repeated header and footer lines when the pages of one PDF are
    joined, and finding the titles whose vector store exists. */
module DataManager {
  import opened PyValues
  import opened PyStrings

  /** A document's metadata dictionary: an object, because one page's dictionary is reused and
      changed in place by the join. */
  class Metadata {
    var entries: map<string, PyValue>

    constructor (entries: map<string, PyValue>)
      ensures this.entries == entries
    {
      this.entries := entries;
    }

    /** `entries.pop(key, None)`: drops the key if present. */
    method Pop(key: string) returns (v: PyValue)
      modifies this
      ensures entries == old(entries) - {key}
      ensures v == if key in old(entries) then old(entries)[key] else PyNone
    {
      v := if key in entries then entries[key] else PyNone;
      entries := entries - {key};
    }
  }

  datatype Document = Document(pageContent: string, metadata: Metadata)

  function Contents(documents: seq<Document>): (contents: seq<string>)
    ensures |contents| == |documents|
    ensures forall i :: 0 <= i < |documents| ==> contents[i] == documents[i].pageContent
  {
    seq(|documents|, i requires 0 <= i < |documents| => documents[i].pageContent)
  }

  // ---------------------------------------------------------------- the line-frequency filter

  /** Every page split into its lines. */
  function LinesAcrossPages(contents: seq<string>): (lines: seq<seq<string>>)
    ensures |lines| == |contents|
    ensures forall i :: 0 <= i < |contents| ==> lines[i] == Split(contents[i], '\n')
  {
    seq(|contents|, i requires 0 <= i < |contents| => Split(contents[i], '\n'))
  }

  function Flatten(pages: seq<seq<string>>): (all: seq<string>)
    ensures forall i, x :: 0 <= i < |pages| && x in pages[i] ==> x in all
    decreases |pages|
  {
    if |pages| == 0 then [] else pages[0] + Flatten(pages[1..])
  }

  /** The lines whose total number of occurrences, over all pages together, is more than half
      the number of pages (rounded down). Occurrences are counted, not the pages they are on. */
  function RepeatedLines(contents: seq<string>): (repeated: set<string>)
    ensures forall x :: x in repeated <==>
      multiset(Flatten(LinesAcrossPages(contents)))[x] > |contents| / 2
  {
    var all := Flatten(LinesAcrossPages(contents));
    set x | x in all && multiset(all)[x] > |contents| / 2
  }

  /** The lines of `page` that are not in `dropped`, in their order. */
  function KeepLines(page: seq<string>, dropped: set<string>): (kept: seq<string>)
    ensures |kept| <= |page|
    ensures forall i :: 0 <= i < |kept| ==> kept[i] !in dropped
    ensures (forall i :: 0 <= i < |page| ==> page[i] in dropped) ==> kept == []
    decreases |page|
  {
    if |page| == 0 then []
    else (if page[0] in dropped then [] else [page[0]]) + KeepLines(page[1..], dropped)
  }

  /** A line survives exactly when it is on the page and not dropped. */
  lemma {:induction false} KeptMember(page: seq<string>, dropped: set<string>, x: string)
    ensures x in KeepLines(page, dropped) <==> x in page && x !in dropped
    decreases |page|
  {
    if |page| > 0 {
      KeptMember(page[1..], dropped, x);
      assert x in page <==> x == page[0] || x in page[1..];
    }
  }

  function CleanPage(page: seq<string>, dropped: set<string>): string
  {
    Join(KeepLines(page, dropped), "\n")
  }

  function CleanPages(pages: seq<seq<string>>, dropped: set<string>): (cleaned: seq<string>)
    ensures |cleaned| == |pages|
    ensures forall i :: 0 <= i < |pages| ==> cleaned[i] == CleanPage(pages[i], dropped)
  {
    seq(|pages|, i requires 0 <= i < |pages| => CleanPage(pages[i], dropped))
  }

  /** The text of the joined document: every page without its repeated lines, the pages
      joined by a line break. */
  function CleanedContent(contents: seq<string>): (text: string)
    ensures |contents| == 1 ==> text == ""
  {
    if |contents| == 1 then
      var lines := Split(contents[0], '\n');
      assert LinesAcrossPages(contents) == [lines];
      assert Flatten([lines]) == lines + Flatten([]);
      assert forall i :: 0 <= i < |lines| ==> lines[i] in RepeatedLines(contents);
      Join(CleanPages(LinesAcrossPages(contents), RepeatedLines(contents)), "\n")
    else
      Join(CleanPages(LinesAcrossPages(contents), RepeatedLines(contents)), "\n")
  }

  /** `clean_and_join_document_pages`. With at most one page the list is returned as it is;
      otherwise the result is one document whose metadata is the first page's dictionary,
      with its 'page' entry removed in place. */
  method CleanAndJoinDocumentPages(documents: seq<Document>) returns (r: seq<Document>)
    modifies if |documents| >= 2 then {documents[0].metadata} else {}
    ensures |documents| <= 1 ==> r == documents
    ensures |documents| >= 2 ==> |r| == 1
    ensures |documents| >= 2 ==> r[0].pageContent == CleanedContent(Contents(documents))
    ensures |documents| >= 2 ==> r[0].metadata == documents[0].metadata
    ensures |documents| >= 2 ==> documents[0].metadata.entries == old(documents[0].metadata.entries) - {"page"}
  {
    if |documents| <= 1 {
      return documents;
    }
    var contents := Contents(documents);
    var linesAcrossPages := LinesAcrossPages(contents);
    var repeatedLines := RepeatedLines(contents);
    var cleanedPages: seq<string> := [];
    for i := 0 to |linesAcrossPages|
      invariant cleanedPages == CleanPages(linesAcrossPages[..i], repeatedLines)
    {
      cleanedPages := cleanedPages + [CleanPage(linesAcrossPages[i], repeatedLines)];
    }
    assert linesAcrossPages[..|linesAcrossPages|] == linesAcrossPages;
    var combinedContent := Join(cleanedPages, "\n");
    var combinedMetadata := documents[0].metadata;
    var _ := combinedMetadata.Pop("page");
    r := [Document(combinedContent, combinedMetadata)];
  }

  // ---------------------------------------------------------------- what the filter promises

  /** In every page a line is dropped exactly when it occurs, over all pages, more than
      half the number of pages times. */
  lemma LineKeptIff(contents: seq<string>, i: int, x: string)
    requires 0 <= i < |contents|
    ensures x in KeepLines(LinesAcrossPages(contents)[i], RepeatedLines(contents)) <==>
      x in Split(contents[i], '\n') && multiset(Flatten(LinesAcrossPages(contents)))[x] <= |contents| / 2
  {
    KeptMember(LinesAcrossPages(contents)[i], RepeatedLines(contents), x);
  }

  /** Dropping nothing keeps every line, in order. */
  lemma {:induction false} KeepAll(page: seq<string>, dropped: set<string>)
    requires forall x :: x in page ==> x !in dropped
    ensures KeepLines(page, dropped) == page
    decreases |page|
  {
    if |page| > 0 {
      KeepAll(page[1..], dropped);
      assert page == [page[0]] + page[1..];
    }
  }

  /** Filtering distributes over concatenation: the kept lines stay in their relative order. */
  lemma {:induction false} KeepConcat(a: seq<string>, b: seq<string>, dropped: set<string>)
    ensures KeepLines(a + b, dropped) == KeepLines(a, dropped) + KeepLines(b, dropped)
    decreases |a|
  {
    if |a| > 0 {
      KeepConcat(a[1..], b, dropped);
      assert (a + b)[1..] == a[1..] + b;
    } else {
      assert a + b == b;
    }
  }

  lemma {:induction false} FlattenMultiset(pages: seq<seq<string>>, i: int, x: string)
    requires 0 <= i < |pages|
    ensures multiset(Flatten(pages))[x] >= multiset(pages[i])[x]
    decreases |pages|
  {
    if i > 0 {
      FlattenMultiset(pages[1..], i - 1, x);
    }
  }

  /** When no line is repeated often enough, the joined text is just the pages joined by a
      line break. */
  lemma NothingRepeated(contents: seq<string>)
    requires forall x :: x in Flatten(LinesAcrossPages(contents)) ==>
      multiset(Flatten(LinesAcrossPages(contents)))[x] <= |contents| / 2
    ensures CleanedContent(contents) == Join(contents, "\n")
  {
    var lines := LinesAcrossPages(contents);
    var repeated := RepeatedLines(contents);
    forall i | 0 <= i < |contents|
      ensures CleanPages(lines, repeated)[i] == contents[i]
    {
      forall x | x in lines[i] ensures x !in repeated {
        FlattenMultiset(lines, i, x);
        assert multiset(lines[i])[x] >= 1;
      }
      KeepAll(lines[i], repeated);
      JoinSplit(contents[i], '\n');
    }
    assert CleanPages(lines, repeated) == contents;
  }

  // ---------------------------------------------------------------- concrete pages

  lemma JoinThree(a: string, b: string, c: string)
    ensures Join([a, b, c], "\n") == a + "\n" + b + "\n" + c
  {
    assert [a, b, c][1..] == [b, c];
    assert [b, c][1..] == [c];
    assert Join([c], "\n") == c;
    assert Join([b, c], "\n") == b + "\n" + c;
    assert Join([a, b, c], "\n") == a + "\n" + (b + "\n" + c);
  }

  lemma FlattenTwo(p: seq<string>, q: seq<string>)
    ensures Flatten([p, q]) == p + q
  {
    assert [p, q][1..] == [q];
    assert [q][1..] == [];
    assert Flatten([q]) == q + Flatten([]);
    assert q + [] == q;
  }

  /** `CleanedContent` of two pages, given how each page is cleaned. */
  lemma TwoPagesClean(contents: seq<string>, lines: seq<seq<string>>, repeated: set<string>, c0: string, c1: string)
    requires |contents| == 2 && LinesAcrossPages(contents) == lines && RepeatedLines(contents) == repeated
    requires CleanPage(lines[0], repeated) == c0 && CleanPage(lines[1], repeated) == c1
    ensures CleanedContent(contents) == c0 + "\n" + c1
  {
    assert CleanPages(lines, repeated) == [c0, c1];
    JoinTwo(c0, c1);
  }

  /** The number of times `x` occurs in `s`. */
  function Occurrences(s: seq<string>, x: string): nat
    decreases |s|
  {
    if |s| == 0 then 0 else (if s[0] == x then 1 else 0) + Occurrences(s[1..], x)
  }

  lemma {:induction false} OccurrencesCount(s: seq<string>, x: string)
    ensures multiset(s)[x] == Occurrences(s, x)
    decreases |s|
  {
    if |s| > 0 {
      OccurrencesCount(s[1..], x);
      assert s == [s[0]] + s[1..];
      assert multiset(s) == multiset([s[0]]) + multiset(s[1..]);
    }
  }

  lemma {:induction false} OccurrencesConcat(s: seq<string>, t: seq<string>, x: string)
    ensures Occurrences(s + t, x) == Occurrences(s, x) + Occurrences(t, x)
    decreases |s|
  {
    if |s| > 0 {
      OccurrencesConcat(s[1..], t, x);
      assert (s + t)[1..] == s[1..] + t;
    } else {
      assert s + t == t;
    }
  }

  lemma CountTwo(a: string, b: string, x: string)
    ensures Occurrences([a, b], x) == (if x == a then 1 else 0) + (if x == b then 1 else 0)
  {
    assert [a, b][1..] == [b];
    assert Occurrences([b], x) == (if x == b then 1 else 0);
  }

  lemma CountThree(a: string, b: string, c: string, x: string)
    ensures Occurrences([a, b, c], x) ==
      (if x == a then 1 else 0) + (if x == b then 1 else 0) + (if x == c then 1 else 0)
  {
    assert [a, b, c][1..] == [b, c];
    CountTwo(b, c, x);
  }

  /** The repeated lines of two pages, given the lines of each. */
  lemma RepeatedOfTwo(contents: seq<string>, lines: seq<seq<string>>, repeated: set<string>)
    requires |contents| == 2 && LinesAcrossPages(contents) == lines
    requires forall x :: x in repeated <==> Occurrences(lines[0], x) + Occurrences(lines[1], x) > 1
    ensures RepeatedLines(contents) == repeated
  {
    assert lines == [lines[0], lines[1]];
    FlattenTwo(lines[0], lines[1]);
    forall x ensures x in RepeatedLines(contents) <==> x in repeated {
      OccurrencesCount(lines[0] + lines[1], x);
      OccurrencesConcat(lines[0], lines[1], x);
    }
  }

  /** A header and a footer on both of two pages are removed, and the distinct middle lines
      are joined. */
  lemma HeaderAndFooterRemoved(h: string, m1: string, m2: string, f: string)
    requires '\n' !in h && '\n' !in m1 && '\n' !in m2 && '\n' !in f
    requires h != f && h != m1 && h != m2 && f != m1 && f != m2 && m1 != m2
    ensures CleanedContent([h + "\n" + m1 + "\n" + f, h + "\n" + m2 + "\n" + f]) == m1 + "\n" + m2
  {
    var contents := [h + "\n" + m1 + "\n" + f, h + "\n" + m2 + "\n" + f];
    var lines := [[h, m1, f], [h, m2, f]];
    JoinThree(h, m1, f);
    JoinThree(h, m2, f);
    TwoPagesSplit(contents, lines);
    var repeated := {h, f};
    forall x ensures x in repeated <==> Occurrences(lines[0], x) + Occurrences(lines[1], x) > 1 {
      CountThree(h, m1, f, x);
      CountThree(h, m2, f, x);
    }
    RepeatedOfTwo(contents, lines, repeated);
    KeepThree(h, m1, f, repeated);
    KeepThree(h, m2, f, repeated);
    TwoPagesClean(contents, lines, repeated, m1, m2);
  }

  /** A line on only one of two pages is kept; the footer common to both is removed. */
  lemma VaryingHeaderKept(h: string, m1: string, m2: string, f: string)
    requires '\n' !in h && '\n' !in m1 && '\n' !in m2 && '\n' !in f
    requires h != f && h != m1 && h != m2 && f != m1 && f != m2 && m1 != m2
    ensures CleanedContent([h + "\n" + m1 + "\n" + f, m2 + "\n" + f]) == h + "\n" + m1 + "\n" + m2
  {
    var contents := [h + "\n" + m1 + "\n" + f, m2 + "\n" + f];
    var lines := [[h, m1, f], [m2, f]];
    JoinThree(h, m1, f);
    JoinTwo(m2, f);
    TwoPagesSplit(contents, lines);
    var repeated := {f};
    forall x ensures x in repeated <==> Occurrences(lines[0], x) + Occurrences(lines[1], x) > 1 {
      CountThree(h, m1, f, x);
      CountTwo(m2, f, x);
    }
    RepeatedOfTwo(contents, lines, repeated);
    KeepTwoOfThree(h, m1, f, repeated);
    KeepFirstOfTwo(m2, f, repeated);
    JoinTwo(h, m1);
    assert Join([m2], "\n") == m2;
    TwoPagesClean(contents, lines, repeated, h + "\n" + m1, m2);
  }

  /** Occurrences are counted, not pages: a line twice on one page of two is dropped, and
      the first page becomes empty. */
  lemma RepeatsWithinOnePageCount(a: string, b: string)
    requires '\n' !in a && '\n' !in b && a != b
    ensures CleanedContent([a + "\n" + a, b]) == "\n" + b
  {
    var contents := [a + "\n" + a, b];
    var lines := [[a, a], [b]];
    JoinTwo(a, a);
    assert Join([b], "\n") == b;
    TwoPagesSplit(contents, lines);
    var repeated := {a};
    forall x ensures x in repeated <==> Occurrences(lines[0], x) + Occurrences(lines[1], x) > 1 {
      CountTwo(a, a, x);
      assert Occurrences([b], x) == (if x == b then 1 else 0);
    }
    RepeatedOfTwo(contents, lines, repeated);
    assert KeepLines([a, a], repeated) == [] by {
      assert [a, a][1..] == [a];
      assert KeepLines([a], repeated) == [];
    }
    assert KeepLines([b], repeated) == [b];
    assert Join([b], "\n") == b;
    TwoPagesClean(contents, lines, repeated, "", b);
  }

  lemma JoinTwo(a: string, b: string)
    ensures Join([a, b], "\n") == a + "\n" + b
  {
    assert [a, b][1..] == [b];
  }

  /** Splitting two pages that are joins of line-break-free lines. */
  lemma TwoPagesSplit(contents: seq<string>, lines: seq<seq<string>>)
    requires |contents| == 2 && |lines| == 2
    requires |lines[0]| >= 1 && |lines[1]| >= 1
    requires forall i, j :: 0 <= i < 2 && 0 <= j < |lines[i]| ==> '\n' !in lines[i][j]
    requires contents[0] == Join(lines[0], "\n") && contents[1] == Join(lines[1], "\n")
    ensures LinesAcrossPages(contents) == lines
  {
    SplitJoin(lines[0], '\n');
    SplitJoin(lines[1], '\n');
  }

  lemma KeepThree(a: string, b: string, c: string, dropped: set<string>)
    requires a in dropped && b !in dropped && c in dropped
    ensures KeepLines([a, b, c], dropped) == [b]
  {
    assert [a, b, c][1..] == [b, c];
    assert [b, c][1..] == [c];
    assert KeepLines([c], dropped) == [];
  }

  lemma KeepFirstOfTwo(a: string, b: string, dropped: set<string>)
    requires a !in dropped && b in dropped
    ensures KeepLines([a, b], dropped) == [a]
  {
    assert [a, b][1..] == [b];
    assert KeepLines([b], dropped) == [];
  }

  lemma KeepTwoOfThree(a: string, b: string, c: string, dropped: set<string>)
    requires a !in dropped && b !in dropped && c in dropped
    ensures KeepLines([a, b, c], dropped) == [a, b]
  {
    assert [a, b, c][1..] == [b, c];
    assert [b, c][1..] == [c];
    assert KeepLines([c], dropped) == [];
  }

  // ---------------------------------------------------------------- runnable titles

  /** The directory that holds the vector store of a title. */
  function StorePath(chromaPath: string, title: string): string
  {
    chromaPath + "/" + SplitextRoot(title)
  }

  /** The titles whose store directory exists, in their order. */
  function Runnable(titles: seq<string>, chromaPath: string, pathExists: string -> bool): (runnable: seq<string>)
    ensures |runnable| <= |titles|
    ensures forall i :: 0 <= i < |runnable| ==> runnable[i] in titles && pathExists(StorePath(chromaPath, runnable[i]))
    decreases |titles|
  {
    if |titles| == 0 then []
    else
      var last := titles[|titles| - 1];
      Runnable(titles[..|titles| - 1], chromaPath, pathExists)
        + (if pathExists(StorePath(chromaPath, last)) then [last] else [])
  }

  /** A title is runnable exactly when it is listed and its store directory exists. */
  lemma {:induction false} RunnableMember(titles: seq<string>, chromaPath: string, pathExists: string -> bool, t: string)
    ensures t in Runnable(titles, chromaPath, pathExists) <==> t in titles && pathExists(StorePath(chromaPath, t))
    decreases |titles|
  {
    if |titles| > 0 {
      var init := titles[..|titles| - 1];
      RunnableMember(init, chromaPath, pathExists, t);
      assert titles == init + [titles[|titles| - 1]];
    }
  }

  lemma RunnableStep(titles: seq<string>, i: int, chromaPath: string, pathExists: string -> bool)
    requires 0 <= i < |titles|
    ensures Runnable(titles[..i + 1], chromaPath, pathExists) == Runnable(titles[..i], chromaPath, pathExists)
      + (if pathExists(StorePath(chromaPath, titles[i])) then [titles[i]] else [])
  {
    assert titles[..i + 1][..i] == titles[..i];
  }

  /** `list.remove(x)`: drops the first occurrence of `x` (the caller knows there is one). */
  function RemoveFirst(xs: seq<string>, x: string): (ys: seq<string>)
    ensures x !in xs ==> ys == xs
    ensures x in xs ==> |ys| == |xs| - 1
    ensures multiset(ys) == multiset(xs) - multiset{x}
    decreases |xs|
  {
    if |xs| == 0 then []
    else if xs[0] == x then
      assert xs == [x] + xs[1..];
      xs[1..]
    else
      assert xs == [xs[0]] + xs[1..];
      [xs[0]] + RemoveFirst(xs[1..], x)
  }

  lemma {:induction false} RemoveFirstAt(a: seq<string>, x: string, b: seq<string>)
    requires x !in a
    ensures RemoveFirst(a + ([x] + b), x) == a + b
    decreases |a|
  {
    if |a| == 0 {
      assert a + ([x] + b) == [x] + b;
    } else {
      RemoveFirstAt(a[1..], x, b);
      assert (a + ([x] + b))[1..] == a[1..] + ([x] + b);
      assert a + b == [a[0]] + (a[1..] + b);
    }
  }

  /** One step of the walk over the copy: removing a title whose store is missing from the
      partly filtered listing extends the filtered prefix by nothing; keeping it extends it by
      the title. */
  lemma RemoveStep(copy: seq<string>, i: int, chromaPath: string, pathExists: string -> bool)
    requires 0 <= i < |copy|
    ensures var done := Runnable(copy[..i], chromaPath, pathExists);
      if pathExists(StorePath(chromaPath, copy[i])) then
        done + copy[i..] == Runnable(copy[..i + 1], chromaPath, pathExists) + copy[i + 1..]
      else
        RemoveFirst(done + copy[i..], copy[i]) == Runnable(copy[..i + 1], chromaPath, pathExists) + copy[i + 1..]
  {
    var done := Runnable(copy[..i], chromaPath, pathExists);
    RunnableStep(copy, i, chromaPath, pathExists);
    assert copy[i..] == [copy[i]] + copy[i + 1..];
    if pathExists(StorePath(chromaPath, copy[i])) {
      KeepStep(done, copy[i], copy[i + 1..]);
    } else {
      RunnableMember(copy[..i], chromaPath, pathExists, copy[i]);
      DropStep(done, copy[i], copy[i + 1..]);
    }
  }

  lemma KeepStep(done: seq<string>, x: string, rest: seq<string>)
    ensures done + ([x] + rest) == (done + [x]) + rest
  {
  }

  lemma DropStep(done: seq<string>, x: string, rest: seq<string>)
    requires x !in done
    ensures RemoveFirst(done + ([x] + rest), x) == (done + []) + rest
  {
    RemoveFirstAt(done, x, rest);
    assert done + [] == done;
  }

  class DocumentManager {
    /** The file names found under the data directories (a directory listing, not modelled). */
    const allTitles: seq<string>
    const chromaPath: string
    /** Whether a path exists on disk. */
    const pathExists: string -> bool

    constructor (allTitles: seq<string>, chromaPath: string, pathExists: string -> bool)
      ensures this.allTitles == allTitles && this.chromaPath == chromaPath && this.pathExists == pathExists
    {
      this.allTitles := allTitles;
      this.chromaPath := chromaPath;
      this.pathExists := pathExists;
    }

    function RunnableTitles(): (titles: seq<string>)
      ensures |titles| <= |allTitles|
      ensures forall i :: 0 <= i < |titles| ==> titles[i] in allTitles && pathExists(StorePath(chromaPath, titles[i]))
    {
      Runnable(allTitles, chromaPath, pathExists)
    }

    /** `get_runnable_titles`: walks a copy of the listing and removes, from the listing itself,
        every title whose store directory is missing. */
    method GetRunnableTitles() returns (globalTitles: seq<string>)
      ensures globalTitles == Runnable(allTitles, chromaPath, pathExists)
      ensures forall t :: t in globalTitles <==> t in allTitles && pathExists(chromaPath + "/" + SplitextRoot(t))
    {
      globalTitles := allTitles;
      var copy := allTitles;
      for i := 0 to |copy|
        invariant globalTitles == Runnable(copy[..i], chromaPath, pathExists) + copy[i..]
      {
        var title := copy[i];
        var dirTitle := SplitextRoot(title);
        RemoveStep(copy, i, chromaPath, pathExists);
        if !pathExists(chromaPath + "/" + dirTitle) {
          globalTitles := RemoveFirst(globalTitles, title);
        }
      }
      assert copy[..|copy|] == copy;
      forall t ensures t in globalTitles <==> t in allTitles && pathExists(chromaPath + "/" + SplitextRoot(t)) {
        RunnableMember(allTitles, chromaPath, pathExists, t);
      }
    }
  }
}
