/**
 * The recipe store (class Recipe): writing the skeleton recipe, importing a
 * loaded YAML document, and listing the imported contents.
 *
 * The file system is a map from path to file text. The YAML loader is a
 * function from file text to the loaded document or to the text of the
 * exception it raised. How a value is written by `"{}".format(v)` is a function
 * `show`.
 */
module Recipes {
  import opened Options

  /** A node of the loaded YAML document. Mappings keep their keys in file order. */
  datatype Yaml =
    | Null
    | Str(text: string)
    | List(items: seq<Yaml>)
    | Map(entries: seq<(string, Yaml)>)

  /** The imported recipe: a dictionary in insertion order. */
  type Contents = seq<(string, Yaml)>

  /** The files that exist, with their text. */
  type FileSystem = map<string, string>

  /** What the YAML loader did with a file's text. */
  datatype Loaded = Parsed(doc: Yaml) | Raised(text: string)

  ghost predicate DistinctKeys(es: seq<(string, Yaml)>) {
    forall i, j :: 0 <= i < j < |es| ==> es[i].0 != es[j].0
  }

  /** Dictionary assignment `d[k] = v`: a present key keeps its place and takes
      the new value, a new key goes last. Unlike the menu table, which is looked
      up by key, the recipe is only assigned to and walked in order, so a
      sequence of pairs is enough. */
  function Put(d: Contents, k: string, v: Yaml): (r: Contents)
    ensures |d| <= |r| <= |d| + 1
    ensures forall i :: 0 <= i < |d| ==> r[i].0 == d[i].0 && (d[i].0 != k ==> r[i] == d[i])
    ensures (forall i :: 0 <= i < |d| ==> d[i].0 != k) ==> r == d + [(k, v)]
    ensures (k, v) in r
    decreases |d|
  {
    if d == [] then [(k, v)]
    else if d[0].0 == k then [(k, v)] + d[1..]
    else [d[0]] + Put(d[1..], k, v)
  }

  /** Assigning to a present key keeps the length. */
  lemma {:induction false} PutPresentLength(d: Contents, k: string, v: Yaml, i: nat)
    requires i < |d| && d[i].0 == k
    ensures |Put(d, k, v)| == |d|
    decreases |d|
  {
    if d[0].0 != k {
      PutPresentLength(d[1..], k, v, i - 1);
    }
  }

  /** An entry past the old length can only be the new key's. */
  lemma PutGrows(d: Contents, k: string, v: Yaml)
    requires |Put(d, k, v)| > |d|
    ensures Put(d, k, v)[|d|] == (k, v)
  {
    if exists i :: 0 <= i < |d| && d[i].0 == k {
      var i :| 0 <= i < |d| && d[i].0 == k;
      PutPresentLength(d, k, v, i);
    }
  }

  /** Assigning to a dictionary with distinct keys keeps them distinct. */
  lemma PutKeepsDistinct(d: Contents, k: string, v: Yaml)
    requires DistinctKeys(d)
    ensures DistinctKeys(Put(d, k, v))
  {
    var r := Put(d, k, v);
    forall i, j | 0 <= i < j < |r|
      ensures r[i].0 != r[j].0
    {
      if j == |d| {
        PutGrows(d, k, v);
        if d[i].0 == k {
          PutPresentLength(d, k, v, i);
        }
      }
    }
  }

  /** With distinct keys, the new value lands in the place of the present key. */
  lemma {:induction false} PutPresentValue(d: Contents, k: string, v: Yaml, i: nat)
    requires DistinctKeys(d)
    requires i < |d| && d[i].0 == k
    ensures Put(d, k, v)[i] == (k, v)
    decreases |d|
  {
    if d[0].0 != k {
      assert DistinctKeys(d[1..]);
      PutPresentValue(d[1..], k, v, i - 1);
    }
  }

  /** Import's rule for one top-level value: None becomes "", anything else is
      stored as it is. (The test meant to copy CommentedMap values compares a
      type with a string and never succeeds, so nested maps are stored as they
      are too.) */
  function Normalize(v: Yaml): (r: Yaml)
    ensures !r.Null?
    ensures !v.Null? ==> r == v
  {
    if v.Null? then Str("") else v
  }

  /** The dictionary the import loop builds from the document's top-level
      entries, taken in order. */
  function Collected(es: seq<(string, Yaml)>): (r: Contents)
    ensures |r| <= |es|
    ensures es != [] ==> (es[|es| - 1].0, Normalize(es[|es| - 1].1)) in r
    decreases |es|
  {
    if es == [] then []
    else
      var (k, v) := es[|es| - 1];
      Put(Collected(es[..|es| - 1]), k, Normalize(v))
  }

  /** One more turn of the import loop. */
  lemma CollectedStep(es: seq<(string, Yaml)>, i: nat)
    requires i < |es|
    ensures Collected(es[..i + 1]) == Put(Collected(es[..i]), es[i].0, Normalize(es[i].1))
  {
    assert es[..i + 1][..i] == es[..i];
  }

  /** The import never gives one key two entries, whatever the document holds. */
  lemma {:induction false} CollectedDistinctKeys(es: seq<(string, Yaml)>)
    ensures DistinctKeys(Collected(es))
    decreases |es|
  {
    if es != [] {
      CollectedDistinctKeys(es[..|es| - 1]);
      PutKeepsDistinct(Collected(es[..|es| - 1]), es[|es| - 1].0, Normalize(es[|es| - 1].1));
    }
  }

  /** No entry of `c` has the key `k`. */
  ghost predicate Fresh(c: Contents, k: string) {
    forall i :: 0 <= i < |c| ==> c[i].0 != k
  }

  /** A key not collected yet goes last. */
  lemma CollectedFresh(es: seq<(string, Yaml)>)
    requires es != []
    requires Fresh(Collected(es[..|es| - 1]), es[|es| - 1].0)
    ensures Collected(es) == Collected(es[..|es| - 1]) + [(es[|es| - 1].0, Normalize(es[|es| - 1].1))]
  {
  }

  /** The imported entry `c` keeps the key of the document's entry `e`; a null
      value became "" and any other value is kept unchanged. */
  ghost predicate ImportedAs(c: (string, Yaml), e: (string, Yaml)) {
    && c.0 == e.0
    && (e.1.Null? ==> c.1 == Str(""))
    && (!e.1.Null? ==> c.1 == e.1)
  }

  lemma ImportedSnoc(c: Contents, es: seq<(string, Yaml)>)
    requires |c| + 1 == |es|
    requires forall i :: 0 <= i < |c| ==> ImportedAs(c[i], es[i])
    ensures var r := c + [(es[|c|].0, Normalize(es[|c|].1))];
      forall i :: 0 <= i < |es| ==> ImportedAs(r[i], es[i])
  {
    var r := c + [(es[|c|].0, Normalize(es[|c|].1))];
    forall i | 0 <= i < |es|
      ensures ImportedAs(r[i], es[i])
    {
      if i < |c| {
        assert r[i] == c[i];
      }
    }
  }

  /** Import keeps exactly the document's top-level keys, in the document's
      order; a null value becomes "" and every other value is kept unchanged. */
  lemma {:induction false} ImportKeepsKeysInOrder(es: seq<(string, Yaml)>)
    requires DistinctKeys(es)
    ensures var c := Collected(es);
      |c| == |es| && forall i :: 0 <= i < |es| ==> ImportedAs(c[i], es[i])
    decreases |es|
  {
    if es != [] {
      var n := |es| - 1;
      var front := es[..n];
      var c := Collected(front);
      assert |c| == n && forall i :: 0 <= i < n ==> ImportedAs(c[i], es[i]) by {
        assert DistinctKeys(front);
        ImportKeepsKeysInOrder(front);
        forall i | 0 <= i < n
          ensures ImportedAs(c[i], es[i])
        {
          assert front[i] == es[i];
        }
      }
      forall i | 0 <= i < |c|
        ensures c[i].0 != es[n].0
      {
        assert ImportedAs(c[i], es[i]);
      }
      CollectedFresh(es);
      ImportedSnoc(c, es);
    }
  }

  /** The Python type name in the AttributeError that `.items()` raises on a
      document that is not a mapping. */
  function TypeName(doc: Yaml): (r: string)
    ensures r == "CommentedMap" <==> doc.Map?
  {
    match doc
    case Null => "NoneType"
    case Str(_) => "str"
    case List(_) => "CommentedSeq"
    case Map(_) => "CommentedMap"
  }

  /** The contents and the error message `import_Recipe` returns. */
  function ImportOutcome(fs: FileSystem, path: string, load: string -> Loaded): (r: (Contents, string))
    ensures path !in fs ==> r == ([], "File does not exist")
    ensures r.0 != [] ==> path in fs && load(fs[path]).Parsed? && r.1 == ""
  {
    if path !in fs then ([], "File does not exist")
    else
      match load(fs[path])
      case Raised(text) => ([], text)
      case Parsed(doc) =>
        if doc.Map? then (Collected(doc.entries), "")
        else ([], "'" + TypeName(doc) + "' object has no attribute 'items'")
  }

  /** An import either succeeds with no message, or fails with empty contents
      and the message of the cause: the missing file, or the exception text. */
  lemma ImportFailureIsEmpty(fs: FileSystem, path: string, load: string -> Loaded)
    ensures var (contents, error) := ImportOutcome(fs, path, load);
      && (path in fs && load(fs[path]).Raised? ==> contents == [] && error == load(fs[path]).text)
      && (path in fs && load(fs[path]).Parsed? && load(fs[path]).doc.Map? ==> error == "")
      && (path in fs && load(fs[path]).Parsed? && !load(fs[path]).doc.Map? ==>
            contents == [] && error != "")
  {
  }

  /** What a skeleton recipe is read back as: the version placeholder, an empty
      `settings` and one placeholder application whose three lists are empty
      (they hold only comments). */
  function SkeletonDocument(): Yaml {
    Map([("version", Str("version-number")),
         ("settings", Null),
         ("applications", Map([("application-name",
                                Map([("dependencies", Null),
                                     ("pre-requisites", Null),
                                     ("installation", Null)]))]))])
  }

  // ----- listing -----------------------------------------------------------

  /** Lines printed, and whether the printing then spins forever. */
  datatype Listing = Listing(lines: seq<string>, hangs: bool)

  /** `lines` printed, then `rest`. */
  function Then(lines: seq<string>, rest: Listing): Listing {
    Listing(lines + rest.lines, rest.hangs)
  }

  /** `"{} = {}".format(k, v)` */
  function KeyLine(k: string, v: Yaml, show: Yaml -> string): string {
    k + " = " + show(v)
  }

  /** `for v in v_new: print("\t{}".format(v))` */
  function ItemLines(xs: seq<Yaml>, show: Yaml -> string): (r: seq<string>)
    ensures |r| == |xs|
    ensures forall i :: 0 <= i < |xs| ==> r[i] == "\t" + show(xs[i])
  {
    seq(|xs|, i requires 0 <= i < |xs| => "\t" + show(xs[i]))
  }

  /** `for k, v in v_new.items(): print("\t{} = {}".format(k, v))` */
  function PairLines(es: seq<(string, Yaml)>, show: Yaml -> string): (r: seq<string>)
    ensures |r| == |es|
    ensures forall i :: 0 <= i < |es| ==> r[i] == "\t" + KeyLine(es[i].0, es[i].1, show)
  {
    seq(|es|, i requires 0 <= i < |es| => "\t" + KeyLine(es[i].0, es[i].1, show))
  }

  lemma ItemLinesSnoc(xs: seq<Yaml>, j: nat, show: Yaml -> string)
    requires j < |xs|
    ensures ItemLines(xs[..j + 1], show) == ItemLines(xs[..j], show) + ["\t" + show(xs[j])]
  {
  }

  lemma PairLinesSnoc(es: seq<(string, Yaml)>, j: nat, show: Yaml -> string)
    requires j < |es|
    ensures PairLines(es[..j + 1], show) == PairLines(es[..j], show) + ["\t" + KeyLine(es[j].0, es[j].1, show)]
  {
  }

  /** The list loop of list_Recipe: print every element of the list, then go on
      with the last element (the loop variable is left bound to it) while that
      is a list. An empty list leaves the variable on the list itself, and the
      loop spins. Also gives the value the variable holds afterwards. */
  function ListDescent(v: Yaml, show: Yaml -> string): (r: (Listing, Yaml))
    ensures !v.List? ==> r == (Listing([], false), v)
    ensures r.0.hangs ==> r.1 == List([])
    ensures !r.0.hangs ==> !r.1.List?
    decreases v
  {
    match v
    case List(xs) =>
      if xs == [] then (Listing([], true), v)
      else
        var (l, after) := ListDescent(xs[|xs| - 1], show);
        (Then(ItemLines(xs, show), l), after)
    case _ => (Listing([], false), v)
  }

  /** The dict loop of list_Recipe: print every entry, then go on with the last
      entry's value while that is a dict; an empty dict makes the loop spin.
      Lists met on the way are printed on one line, never descended into. */
  function DictDescent(v: Yaml, show: Yaml -> string): (r: Listing)
    ensures !v.Map? ==> r == Listing([], false)
    ensures r.hangs ==> v.Map?
    decreases v
  {
    match v
    case Map(es) =>
      if es == [] then Listing([], true)
      else
        var last := es[|es| - 1];
        assert last in es;
        Then(PairLines(es, show), DictDescent(last.1, show))
    case _ => Listing([], false)
  }

  /** What list_Recipe prints for a top-level value after its `k = v` line:
      the list loop, then the dict loop on whatever value the list loop left. */
  function Descent(v: Yaml, show: Yaml -> string): (r: Listing)
    ensures r.hangs ==> v.List? || v.Map?
    ensures !v.List? && !v.Map? ==> r == Listing([], false)
  {
    var (l, after) := ListDescent(v, show);
    After(l, DictDescent(after, show))
  }

  /** What list_Recipe prints for one top-level entry. */
  function EntryListing(k: string, v: Yaml, show: Yaml -> string): (r: Listing)
    ensures |r.lines| > 0 && r.lines[0] == KeyLine(k, v, show)
    ensures r.hangs <==> Descent(v, show).hangs
  {
    Then([KeyLine(k, v, show)], Descent(v, show))
  }

  /** `e`, then `more` unless `e` spins. */
  function After(e: Listing, more: Listing): Listing {
    if e.hangs then e else Then(e.lines, more)
  }

  /** What list_Recipe prints for the contents, entry by entry. */
  function ListingOf(c: Contents, show: Yaml -> string): (r: Listing)
    ensures c != [] ==> |r.lines| > 0 && r.lines[0] == KeyLine(c[0].0, c[0].1, show)
    ensures !r.hangs ==> |r.lines| >= |c|
    ensures r.hangs ==> c != []
  {
    if c == [] then Listing([], false)
    else Then([KeyLine(c[0].0, c[0].1, show)], After(Descent(c[0].1, show), ListingOf(c[1..], show)))
  }

  /** list_Recipe with its optional argument. */
  function RecipeListing(contents: Option<Contents>, show: Yaml -> string): (r: Listing)
    ensures contents.None? ==> r.lines == [] && !r.hangs
    ensures contents.Some? && contents.value != [] ==> |r.lines| > 0
  {
    match contents
    case None => Listing([], false)
    case Some(c) => ListingOf(c, show)
  }

  /** After is associative, so a listing can be regrouped at any entry. */
  lemma AfterAfter(a: Listing, b: Listing, c: Listing)
    ensures After(After(a, b), c) == After(a, After(b, c))
  {
    if !a.hangs && !b.hangs {
      assert a.lines + b.lines + c.lines == a.lines + (b.lines + c.lines);
    }
  }

  lemma AfterThen(lines: seq<string>, e: Listing, more: Listing)
    ensures After(Then(lines, e), more) == Then(lines, After(e, more))
  {
    if !e.hangs {
      assert lines + e.lines + more.lines == lines + (e.lines + more.lines);
    }
  }

  lemma ThenThen(a: seq<string>, b: seq<string>, l: Listing)
    ensures Then(a, Then(b, l)) == Then(a + b, l)
  {
    assert a + (b + l.lines) == a + b + l.lines;
  }

  /** The descent from a non-empty list prints its elements and continues from
      the last one; from anything but a list it is the dict loop alone. */
  lemma DescentSteps(v: Yaml, show: Yaml -> string)
    ensures v.List? && v.items != [] ==>
              Descent(v, show) == Then(ItemLines(v.items, show), Descent(v.items[|v.items| - 1], show))
    ensures !v.List? ==> Descent(v, show) == DictDescent(v, show)
  {
    if v.List? && v.items != [] {
      var xs := v.items;
      var (l, after) := ListDescent(xs[|xs| - 1], show);
      assert ListDescent(v, show) == (Then(ItemLines(xs, show), l), after);
      AfterThen(ItemLines(xs, show), l, DictDescent(after, show));
    } else if !v.List? {
      var d := DictDescent(v, show);
      assert [] + d.lines == d.lines;
    }
  }

  /** Listing a top-level list prints every element on its own indented line,
      then descends only into the last element. */
  lemma {:induction false} OnlyLastElementDescended(k: string, xs: seq<Yaml>, show: Yaml -> string)
    requires xs != []
    ensures var last := Descent(xs[|xs| - 1], show);
      EntryListing(k, List(xs), show)
        == Listing([KeyLine(k, List(xs), show)] + ItemLines(xs, show) + last.lines, last.hangs)
  {
    var (l, after) := ListDescent(xs[|xs| - 1], show);
    if !l.hangs {
      var d := DictDescent(after, show);
      assert ItemLines(xs, show) + l.lines + d.lines == ItemLines(xs, show) + (l.lines + d.lines);
    }
  }

  /** Listing a top-level dict prints every entry as an indented `k = v` line,
      then descends only into the last entry's value, and only while that is a
      dict. */
  lemma {:induction false} OnlyLastEntryDescended(k: string, es: seq<(string, Yaml)>, show: Yaml -> string)
    requires es != []
    ensures var last := DictDescent(es[|es| - 1].1, show);
      EntryListing(k, Map(es), show)
        == Listing([KeyLine(k, Map(es), show)] + PairLines(es, show) + last.lines, last.hangs)
  {
  }

  /** A top-level empty list or empty dict makes list_Recipe spin right after
      the entry's `k = v` line; no later entry is printed. */
  lemma EmptyContainerHangs(k: string, v: Yaml, rest: Contents, show: Yaml -> string)
    requires v == List([]) || v == Map([])
    ensures ListingOf([(k, v)] + rest, show) == Listing([KeyLine(k, v, show)], true)
  {
  }

  /** The listing of concatenated contents is the listing of the first part,
      then, unless it spins, the listing of the second part. */
  lemma {:induction false} ListingAppend(c1: Contents, c2: Contents, show: Yaml -> string)
    ensures ListingOf(c1 + c2, show) == After(ListingOf(c1, show), ListingOf(c2, show))
    decreases |c1|
  {
    if c1 != [] {
      assert (c1 + c2)[0] == c1[0] && (c1 + c2)[1..] == c1[1..] + c2;
      ListingAppend(c1[1..], c2, show);
      var header := [KeyLine(c1[0].0, c1[0].1, show)];
      var d := Descent(c1[0].1, show);
      var l := ListingOf(c1[1..], show);
      var l2 := ListingOf(c2, show);
      assert ListingOf(c1 + c2, show) == Then(header, After(d, After(l, l2)));
      AfterAfter(d, l, l2);
      AfterThen(header, After(d, l), l2);
    } else {
      assert c1 + c2 == c2;
    }
  }

  /** list_Recipe spins exactly when the descent from some top-level value
      meets an empty list or dict. */
  lemma {:induction false} ListingHangsIffSomeEntryHangs(c: Contents, show: Yaml -> string)
    ensures ListingOf(c, show).hangs <==> exists i :: 0 <= i < |c| && Descent(c[i].1, show).hangs
    decreases |c|
  {
    if c != [] {
      ListingHangsIffSomeEntryHangs(c[1..], show);
      if exists i :: 0 <= i < |c[1..]| && Descent(c[1..][i].1, show).hangs {
        var i :| 0 <= i < |c[1..]| && Descent(c[1..][i].1, show).hangs;
        assert Descent(c[i + 1].1, show).hangs;
      }
      if exists i :: 0 <= i < |c| && Descent(c[i].1, show).hangs {
        var i :| 0 <= i < |c| && Descent(c[i].1, show).hangs;
        if i > 0 {
          assert Descent(c[1..][i - 1].1, show).hangs;
        }
      }
    }
  }

  /** The `foo` application of the example below, and the lines printed for it. */
  function ExampleApp(): Yaml {
    Map([("dependencies", List([Str("bar")])), ("pre-requisites", List([])), ("installation", List([]))])
  }

  function ExampleAppLines(show: Yaml -> string): seq<string> {
    ["\t" + KeyLine("dependencies", List([Str("bar")]), show), "\t" + KeyLine("pre-requisites", List([]), show),
     "\t" + KeyLine("installation", List([]), show)]
  }

  /** The dict loop prints the three entries of `foo`, then stops at the last
      value, a list. */
  lemma ExampleAppListing(show: Yaml -> string)
    ensures DictDescent(ExampleApp(), show) == Listing(ExampleAppLines(show), false)
  {
    var lines := ExampleAppLines(show);
    assert PairLines(ExampleApp().entries, show) == lines;
    assert lines + [] == lines;
  }

  /** From `applications`, the dict loop prints `foo`'s line and goes on into
      `foo`. */
  lemma ExampleApplicationsListing(show: Yaml -> string)
    ensures Descent(Map([("foo", ExampleApp())]), show)
      == Listing(["\t" + KeyLine("foo", ExampleApp(), show)] + ExampleAppLines(show), false)
  {
    var apps := Map([("foo", ExampleApp())]);
    var l := Listing(["\t" + KeyLine("foo", ExampleApp(), show)] + ExampleAppLines(show), false);
    ExampleAppListing(show);
    assert PairLines(apps.entries, show) == ["\t" + KeyLine("foo", ExampleApp(), show)];
    assert DictDescent(apps, show) == l;
    assert [] + l.lines == l.lines;
  }

  /** Listing a small recipe: a dict value is printed
      entry by entry, but only its last entry is descended into, and that one
      is a list, so no element of `dependencies` gets a line of its own. */
  lemma ListingExample(show: Yaml -> string)
    ensures var apps := Map([("foo", ExampleApp())]);
      ListingOf([("version", Str("1.0")), ("applications", apps)], show)
        == Listing([KeyLine("version", Str("1.0"), show),
                    KeyLine("applications", apps, show),
                    "\t" + KeyLine("foo", ExampleApp(), show)] + ExampleAppLines(show), false)
  {
    var apps := Map([("foo", ExampleApp())]);
    var c := [("version", Str("1.0")), ("applications", apps)];
    var l0, l1 := KeyLine("version", Str("1.0"), show), KeyLine("applications", apps, show);
    var l2 := "\t" + KeyLine("foo", ExampleApp(), show);
    var rest := ExampleAppLines(show);
    ExampleApplicationsListing(show);
    var tail := ListingOf(c[1..], show);
    assert tail == Listing([l1, l2] + rest, false) by {
      assert c[1..][0] == ("applications", apps) && c[1..][1..] == [];
      assert ListingOf(c[1..][1..], show) == Listing([], false);
      assert [l2] + rest + [] == [l2] + rest;
      assert [l1] + ([l2] + rest) == [l1, l2] + rest;
    }
    assert Descent(Str("1.0"), show) == Listing([], false);
    assert [] + tail.lines == tail.lines;
    assert [l0] + ([l1, l2] + rest) == [l0, l1, l2] + rest;
  }

  /** The recipe file handler of the source. */
  class Recipe {
    var recipeFile: string
    /** The template text written by generate_Recipe. */
    const recipeSkeleton: string
    /** The contents of the last import. */
    var recipeContents: Contents

    constructor (skeleton: string, recipeFile: string := "recipe.yaml")
      ensures this.recipeFile == recipeFile && recipeSkeleton == skeleton && recipeContents == []
    {
      this.recipeFile := recipeFile;
      recipeSkeleton := skeleton;
      recipeContents := [];
    }

    /** generate_Recipe: the new file system and the message. An existing file
        is never written to; a write that raises leaves its text as the message
        (`writeFailure`). */
    function GenerateRecipe(fs: FileSystem, writeFailure: Option<string>,
                            recipeFile: string := "recipe.yaml"): (r: (FileSystem, string))
      ensures forall p :: p in fs ==> p in r.0 && r.0[p] == fs[p]
      ensures r.0.Keys <= fs.Keys + {recipeFile}
      ensures recipeFile in fs ==> r.1 == "File exists"
      ensures recipeFile !in fs && writeFailure.None? ==>
                r.1 == "" && recipeFile in r.0 && r.0[recipeFile] == recipeSkeleton
      ensures writeFailure.Some? ==> r.0 == fs && (recipeFile !in fs ==> r.1 == writeFailure.value)
    {
      if recipeFile in fs then (fs, "File exists")
      else
        match writeFailure
        case None => (fs[recipeFile := recipeSkeleton], "")
        case Some(text) => (fs, text)
    }

    /** import_Recipe: the contents and message of ImportOutcome, which also
        replace the held contents, on failure as well as on success. */
    method ImportRecipe(fs: FileSystem, load: string -> Loaded, recipeFile: string := "recipe.yaml")
      returns (contents: Contents, errorMsg: string)
      modifies this`recipeContents
      ensures (contents, errorMsg) == ImportOutcome(fs, recipeFile, load)
      ensures recipeContents == contents
    {
      contents, errorMsg := [], "";
      if recipeFile in fs {
        match load(fs[recipeFile])
        case Raised(text) =>
          errorMsg := text;
        case Parsed(doc) =>
          if doc.Map? {
            var items := doc.entries;
            for i := 0 to |items|
              invariant contents == Collected(items[..i])
            {
              var (k, v) := items[i];
              CollectedStep(items, i);
              if v != Null {
                contents := Put(contents, k, v);
              } else {
                contents := Put(contents, k, Str(""));
              }
            }
            assert items[..|items|] == items;
          } else {
            errorMsg := "'" + TypeName(doc) + "' object has no attribute 'items'";
          }
      } else {
        errorMsg := "File does not exist";
      }
      recipeContents := contents;
    }

    /** list_Recipe: the lines printed, and whether it then spins forever (the
        model stops where the source would loop without printing). */
    method ListRecipe(show: Yaml -> string, contents: Option<Contents> := None)
      returns (lines: seq<string>, hangs: bool)
      ensures Listing(lines, hangs) == RecipeListing(contents, show)
    {
      lines, hangs := [], false;
      if contents.Some? {
        var c := contents.value;
        for i := 0 to |c|
          invariant ListingOf(c, show) == Then(lines, ListingOf(c[i..], show))
        {
          var (k, v) := c[i];
          var rest := c[i + 1..];
          ghost var v0, pre, header := v, lines, [KeyLine(k, v, show)];
          assert c[i..][0] == (k, v) && c[i..][1..] == rest;
          lines := lines + [KeyLine(k, v, show)];
          var printed;
          printed, v, hangs := ListLoop(v, show);
          if hangs {
            ThenThen(pre, header, Listing(printed, true));
            lines := lines + printed;
            return;
          }
          var more;
          more, hangs := DictLoop(v, show);
          assert Descent(v0, show) == Listing(printed + more, hangs);
          ThenThen(pre, header, After(Listing(printed + more, hangs), ListingOf(rest, show)));
          lines := lines + (printed + more);
          if hangs {
            return;
          }
          ThenThen(lines[..|pre| + 1] , printed + more, ListingOf(rest, show));
          assert lines[..|pre| + 1] + (printed + more) == lines;
        }
        assert c[|c|..] == [];
      }
    }

    /** `for v in v_new: print("\t{}".format(v))`, which leaves `v` on the last
        element. */
    method PrintItems(vNew: seq<Yaml>, show: Yaml -> string) returns (printed: seq<string>, v: Yaml)
      requires vNew != []
      ensures printed == ItemLines(vNew, show) && v == vNew[|vNew| - 1]
    {
      printed, v := [], vNew[0];
      assert vNew[..0] == [];
      for j := 0 to |vNew|
        invariant printed == ItemLines(vNew[..j], show)
        invariant j > 0 ==> v == vNew[j - 1]
      {
        ItemLinesSnoc(vNew, j, show);
        v := vNew[j];
        printed := printed + ["\t" + show(v)];
      }
      assert vNew[..|vNew|] == vNew;
    }

    /** `for k, v in v_new.items(): print("\t{} = {}".format(k, v))`, which
        leaves `v` on the last value. */
    method PrintEntries(vNew: seq<(string, Yaml)>, show: Yaml -> string) returns (printed: seq<string>, v: Yaml)
      requires vNew != []
      ensures printed == PairLines(vNew, show) && v == vNew[|vNew| - 1].1
    {
      printed, v := [], vNew[0].1;
      assert vNew[..0] == [];
      for j := 0 to |vNew|
        invariant printed == PairLines(vNew[..j], show)
        invariant j > 0 ==> v == vNew[j - 1].1
      {
        PairLinesSnoc(vNew, j, show);
        var (key, value) := vNew[j];
        v := value;
        printed := printed + ["\t" + KeyLine(key, v, show)];
      }
      assert vNew[..|vNew|] == vNew;
    }

    /** The list loop of list_Recipe: `while isinstance(v, list)`, printing the
        elements and leaving `v` on the last one. */
    method ListLoop(v0: Yaml, show: Yaml -> string) returns (printed: seq<string>, v: Yaml, hangs: bool)
      ensures (Listing(printed, hangs), v) == ListDescent(v0, show)
    {
      printed, v, hangs := [], v0, false;
      assert [] + ListDescent(v0, show).0.lines == ListDescent(v0, show).0.lines;
      while v.List?
        invariant ListDescent(v0, show) == (Then(printed, ListDescent(v, show).0), ListDescent(v, show).1)
        decreases v
      {
        var vNew := v.items;
        if vNew == [] {
          // the for loop below leaves v on the empty list: the source spins
          hangs := true;
          assert printed + [] == printed;
          return;
        }
        ghost var before := printed;
        ThenThen(before, ItemLines(vNew, show), ListDescent(vNew[|vNew| - 1], show).0);
        assert ListDescent(v, show)
          == (Then(ItemLines(vNew, show), ListDescent(vNew[|vNew| - 1], show).0), ListDescent(vNew[|vNew| - 1], show).1);
        var items;
        items, v := PrintItems(vNew, show);
        printed := printed + items;
      }
      assert printed + [] == printed;
    }

    /** The dict loop of list_Recipe: `while isinstance(v, dict)`, printing the
        entries and leaving `v` on the last value. */
    method DictLoop(v0: Yaml, show: Yaml -> string) returns (printed: seq<string>, hangs: bool)
      ensures Listing(printed, hangs) == DictDescent(v0, show)
    {
      printed, hangs := [], false;
      var v := v0;
      assert [] + DictDescent(v0, show).lines == DictDescent(v0, show).lines;
      while v.Map?
        invariant DictDescent(v0, show) == Then(printed, DictDescent(v, show))
        decreases v
      {
        var vNew := v.entries;
        if vNew == [] {
          // the for loop below leaves v on the empty dict: the source spins
          hangs := true;
          assert printed + [] == printed;
          return;
        }
        ghost var before := printed;
        ThenThen(before, PairLines(vNew, show), DictDescent(vNew[|vNew| - 1].1, show));
        assert DictDescent(v, show) == Then(PairLines(vNew, show), DictDescent(vNew[|vNew| - 1].1, show));
        var entries;
        entries, v := PrintEntries(vNew, show);
        printed := printed + entries;
      }
      assert printed + [] == printed;
    }
  }

  /** Writing the skeleton to a fresh path and importing it succeeds, with
      `settings` normalised to "" and the placeholder application kept, its
      three lists still null. */
  lemma GenerateThenImport(recipe: Recipe, fs: FileSystem, path: string, load: string -> Loaded)
    requires path !in fs
    requires load(recipe.recipeSkeleton) == Parsed(SkeletonDocument())
    ensures var written := recipe.GenerateRecipe(fs, None, path);
      && written.1 == ""
      && ImportOutcome(written.0, path, load)
           == ([("version", Str("version-number")), ("settings", Str("")),
                ("applications", SkeletonDocument().entries[2].1)], "")
  {
    var written := recipe.GenerateRecipe(fs, None, path);
    assert path in written.0 && written.0[path] == recipe.recipeSkeleton;
    SkeletonImported();
  }

  /** Three entries with distinct keys are imported in order, each normalised. */
  lemma CollectedThree(a: (string, Yaml), b: (string, Yaml), c: (string, Yaml))
    requires a.0 != b.0 && a.0 != c.0 && b.0 != c.0
    ensures Collected([a, b, c])
      == [(a.0, Normalize(a.1)), (b.0, Normalize(b.1)), (c.0, Normalize(c.1))]
  {
    var es := [a, b, c];
    assert es[..1] == [a] && es[..1][..0] == [];
    CollectedFresh(es[..1]);
    assert es[..2] == [a, b] && es[..2][..1] == [a];
    CollectedFresh(es[..2]);
    assert es[..|es| - 1] == [a, b];
    CollectedFresh(es);
  }

  /** The skeleton's three top-level entries are imported in order, `settings`
      becoming "". */
  lemma SkeletonImported()
    ensures var es := SkeletonDocument().entries;
      Collected(es) == [("version", Str("version-number")), ("settings", Str("")), ("applications", es[2].1)]
  {
    var es := SkeletonDocument().entries;
    assert es == [es[0], es[1], es[2]];
    assert es[0].0[0] != es[1].0[0] && es[0].0[0] != es[2].0[0] && es[1].0[0] != es[2].0[0];
    CollectedThree(es[0], es[1], es[2]);
  }
}
