/** The concatenation manifest `list.txt`: one `file '<name>'` line for
    each entry of the job folder whose name ends with the intermediate
    suffix, in the order the folder listing gives them. The listing is an
    input here; the folder is never read. */
module Manifest {
  import opened Text
  import opened Paths

  /** The listing entries the manifest keeps, in listing order. */
  function Select(listing: seq<string>, postfix: string): (r: seq<string>)
    ensures |r| <= |listing|
    ensures forall e :: e in r <==> e in listing && EndsWith(e, postfix)
  {
    if listing == [] then []
    else (if EndsWith(listing[0], postfix) then [listing[0]] else []) + Select(listing[1..], postfix)
  }

  const LinePrefix := "file '"

  /** One manifest line, newline included. */
  function Line(entry: string): string
  {
    LinePrefix + entry + "'" + "\n"
  }

  /** The manifest lines for `entries`, in order. */
  function Render(entries: seq<string>): string
  {
    if entries == [] then "" else Line(entries[0]) + Render(entries[1..])
  }

  /** What `create_sub_video_files_txt` writes into `list.txt`. */
  function ManifestText(listing: seq<string>, postfix: string): string
  {
    Render(Select(listing, postfix))
  }

  /** `create_sub_video_files_txt(postfix, root_folder)` with the folder's
      listing given: the path of the manifest and the text written to it. */
  method CreateSubVideoFilesTxt(postfix: string, folder: string, listing: seq<string>)
    returns (path: string, text: string)
    ensures path == ListPath(folder)
    ensures text == ManifestText(listing, postfix)
  {
    path := Join(folder, "list.txt");
    text := "";
    for i := 0 to |listing|
      invariant text == ManifestText(listing[..i], postfix)
    {
      ghost var kept := Select(listing[..i], postfix);
      SelectStep(listing, i, postfix);
      if EndsWith(listing[i], postfix) {
        RenderAppend(kept, [listing[i]]);
        RenderOne(listing[i]);
        text := text + Line(listing[i]);
      } else {
        assert Select(listing[..i + 1], postfix) == kept + [] == kept;
      }
    }
    assert listing[..|listing|] == listing;
  }

  // ---------------------------------------------------------------------
  // Order

  /** Selecting from two listings one after the other keeps both orders. */
  lemma {:induction false} SelectAppend(a: seq<string>, b: seq<string>, postfix: string)
    ensures Select(a + b, postfix) == Select(a, postfix) + Select(b, postfix)
    decreases |a|
  {
    if a == [] {
      assert a + b == b;
    } else {
      assert (a + b)[0] == a[0] && (a + b)[1..] == a[1..] + b;
      SelectAppend(a[1..], b, postfix);
    }
  }

  /** One more listing entry adds at most its own name, at the end. */
  lemma SelectStep(listing: seq<string>, i: nat, postfix: string)
    requires i < |listing|
    ensures Select(listing[..i + 1], postfix)
            == Select(listing[..i], postfix) + (if EndsWith(listing[i], postfix) then [listing[i]] else [])
  {
    assert listing[..i + 1] == listing[..i] + [listing[i]];
    SelectAppend(listing[..i], [listing[i]], postfix);
    assert [listing[i]][1..] == [];
  }

  lemma {:induction false} RenderAppend(a: seq<string>, b: seq<string>)
    ensures Render(a + b) == Render(a) + Render(b)
    decreases |a|
  {
    if a == [] {
      assert a + b == b;
    } else {
      assert (a + b)[0] == a[0] && (a + b)[1..] == a[1..] + b;
      RenderAppend(a[1..], b);
    }
  }

  lemma RenderOne(entry: string)
    ensures Render([entry]) == Line(entry)
  {
    assert [entry][1..] == [];
  }

  // ---------------------------------------------------------------------
  // Reading the manifest back

  /** Reads one line (without its newline) of the form `file '<name>'`. */
  function ParseLine(line: string): Option<string>
  {
    if |line| > |LinePrefix| && StartsWith(line, LinePrefix) && line[|line| - 1] == '\''
    then Some(line[|LinePrefix|..|line| - 1])
    else None
  }

  /** Reads a manifest: every line must be a `file '<name>'` line ending in
      a newline. This is this module's own line reader, the partner of
      `Render`, and not ffmpeg's concat-file parser: it takes a name to be
      everything between `file '` and the line's last `'`, so it reads a
      name holding `'` back unchanged where ffmpeg would treat that `'` as a
      quote. */
  function ParseManifest(text: string): Option<seq<string>>
    decreases |text|
  {
    if text == [] then Some([])
    else
      match Field(text, "\n")
      case None => None
      case Some((line, rest)) =>
        match (ParseLine(line), ParseManifest(rest))
        case (Some(entry), Some(entries)) => Some([entry] + entries)
        case _ => None
  }

  lemma ParseLineOf(entry: string)
    ensures ParseLine(LinePrefix + entry + "'") == Some(entry)
  {
    var line := LinePrefix + entry + "'";
    assert line[..|LinePrefix|] == LinePrefix;
    assert line[|LinePrefix|..|line| - 1] == entry;
  }

  /** The manifest of a list of names reads back as those names, in the
      same order, as long as no name holds a newline. */
  lemma {:induction false} RenderRoundTrip(entries: seq<string>)
    requires forall e :: e in entries ==> '\n' !in e
    ensures ParseManifest(Render(entries)) == Some(entries)
    decreases |entries|
  {
    if entries != [] {
      var e := entries[0];
      var line := LinePrefix + e + "'";
      assert '\n' !in line;
      assert Render(entries) == line + "\n" + Render(entries[1..]);
      FieldOfJoined(line, "\n", Render(entries[1..]));
      ParseLineOf(e);
      RenderRoundTrip(entries[1..]);
      assert [e] + entries[1..] == entries;
    }
  }

  /** The manifest names exactly the listing entries that end with the
      suffix, bare and in listing order. */
  lemma ManifestRoundTrip(listing: seq<string>, postfix: string)
    requires forall e :: e in listing && EndsWith(e, postfix) ==> '\n' !in e
    ensures ParseManifest(ManifestText(listing, postfix)) == Some(Select(listing, postfix))
  {
    RenderRoundTrip(Select(listing, postfix));
  }

  // ---------------------------------------------------------------------
  // The manifest of a job folder

  /** The bare names of the intermediate files of an `n`-clip job, in clip
      order. */
  function IntermediateNames(n: nat): (r: seq<string>)
    ensures |r| == n
    ensures forall i :: 0 <= i < n ==> r[i] == IntermediateName(i)
  {
    seq(n, i requires 0 <= i => IntermediateName(i))
  }

  lemma IntermediateNameHasNoNewline(i: nat)
    ensures '\n' !in IntermediateName(i)
  {
    var digits := NatToString(i);
    assert IntermediateName(i) == digits + Postfix;
    assert '\n' !in digits;
  }

  /** A listing whose every entry carries the suffix is kept whole. */
  lemma {:induction false} SelectAll(listing: seq<string>, postfix: string)
    requires forall i :: 0 <= i < |listing| ==> EndsWith(listing[i], postfix)
    ensures Select(listing, postfix) == listing
    decreases |listing|
  {
    if listing != [] {
      SelectAll(listing[1..], postfix);
      assert [listing[0]] + listing[1..] == listing;
    }
  }

  /** A listing none of whose entries carries the suffix adds nothing. */
  lemma {:induction false} SelectNone(listing: seq<string>, postfix: string)
    requires forall i :: 0 <= i < |listing| ==> !EndsWith(listing[i], postfix)
    ensures Select(listing, postfix) == []
    decreases |listing|
  {
    if listing != [] {
      SelectNone(listing[1..], postfix);
    }
  }

  lemma IntermediateNamesRoundTrip(names: seq<string>)
    requires forall i :: 0 <= i < |names| ==> exists k: nat :: names[i] == IntermediateName(k)
    ensures ParseManifest(ManifestText(names, Postfix)) == Some(names)
  {
    forall i | 0 <= i < |names|
      ensures EndsWith(names[i], Postfix) && '\n' !in names[i]
    {
      var k: nat :| names[i] == IntermediateName(k);
      IntermediateNameHasNoNewline(k);
    }
    SelectAll(names, Postfix);
    RenderRoundTrip(names);
  }

  /** When the intermediate files the folder lists are, in listing order,
      exactly those of clips 0 to n-1, the manifest puts the clips in clip
      order, whatever other files (the manifest itself, an old result, the
      DONE marker) the listing holds before, between or after them. */
  lemma ManifestInClipOrder(n: nat, listing: seq<string>)
    requires Select(listing, Postfix) == IntermediateNames(n)
    ensures ParseManifest(ManifestText(listing, Postfix)) == Some(IntermediateNames(n))
  {
    var names := IntermediateNames(n);
    forall e | e in listing && EndsWith(e, Postfix)
      ensures '\n' !in e
    {
      assert e in names;
      var i :| 0 <= i < n && names[i] == e;
      IntermediateNameHasNoNewline(i);
    }
    ManifestRoundTrip(listing, Postfix);
  }

  /** One common listing meets that condition: the intermediate files in
      clip order as one block, with only unsuffixed files before and after. */
  lemma ClipBlockSelected(n: nat, before: seq<string>, after: seq<string>)
    requires forall i :: 0 <= i < |before| ==> !EndsWith(before[i], Postfix)
    requires forall i :: 0 <= i < |after| ==> !EndsWith(after[i], Postfix)
    ensures Select(before + IntermediateNames(n) + after, Postfix) == IntermediateNames(n)
  {
    var names := IntermediateNames(n);
    assert Select(before + names + after, Postfix) == Select(before + names, Postfix) + Select(after, Postfix) by {
      SelectAppend(before + names, after, Postfix);
    }
    assert Select(before + names, Postfix) == Select(before, Postfix) + Select(names, Postfix) by {
      SelectAppend(before, names, Postfix);
    }
    assert Select(before, Postfix) == [] by {
      SelectNone(before, Postfix);
    }
    assert Select(after, Postfix) == [] by {
      SelectNone(after, Postfix);
    }
    assert Select(names, Postfix) == names by {
      SelectAll(names, Postfix);
    }
  }

  /** The listing, not the clip index, decides the order: a folder that
      lists clip 1's file before clip 0's gets clip 1 concatenated first. */
  lemma ListingOrderDecides()
    ensures ParseManifest(ManifestText([IntermediateName(1), IntermediateName(0)], Postfix))
            == Some([IntermediateName(1), IntermediateName(0)])
  {
    IntermediateNamesRoundTrip([IntermediateName(1), IntermediateName(0)]);
  }

  /** An intermediate file left in the folder by an earlier, longer run of
      the same job is concatenated too. */
  lemma StaleIntermediateIncluded(n: nat, stale: nat, listing: seq<string>)
    requires n <= stale
    requires forall e :: e in listing && EndsWith(e, Postfix) ==> '\n' !in e
    requires IntermediateName(stale) in listing
    ensures var parsed := ParseManifest(ManifestText(listing, Postfix));
            parsed.Some? && IntermediateName(stale) in parsed.value && IntermediateName(stale) !in IntermediateNames(n)
  {
    ManifestRoundTrip(listing, Postfix);
    if IntermediateName(stale) in IntermediateNames(n) {
      var i :| 0 <= i < n && IntermediateNames(n)[i] == IntermediateName(stale);
      IntermediateNameInjective(i, stale);
    }
  }
}
