/** The clip entries of a job document and the two utilities that work on
    them before any video is cut: prefixing each name with the source root,
    and checking that every source file exists. */
module Clips {
  import opened Text

  /** One entry of the document's `files` list. Times are whole seconds. */
  datatype Clip = Clip(name: string, start: int, end: int, fade: int)

  /** The name `insert_root_path` gives an entry: root, '/', old name.
      Plain concatenation; nothing is normalised. */
  function RootedName(root: string, name: string): string
  {
    root + "/" + name
  }

  /** Every entry of `clips` with its name rooted, in the same order. */
  function Rooted(clips: seq<Clip>, root: string): (r: seq<Clip>)
    ensures |r| == |clips|
  {
    if clips == [] then []
    else
      var last := clips[|clips| - 1];
      Rooted(clips[..|clips| - 1], root) + [last.(name := RootedName(root, last.name))]
  }

  /** Entry `i` of the rewritten list is entry `i` of the old list with
      only its name changed, to root + "/" + old name. */
  lemma {:induction false} RootedAt(clips: seq<Clip>, root: string, i: nat)
    requires i < |clips|
    ensures |Rooted(clips, root)| == |clips|
    ensures Rooted(clips, root)[i].name == root + "/" + clips[i].name
    ensures Rooted(clips, root)[i].start == clips[i].start
    ensures Rooted(clips, root)[i].end == clips[i].end
    ensures Rooted(clips, root)[i].fade == clips[i].fade
    decreases |clips|
  {
    if i < |clips| - 1 {
      RootedAt(clips[..|clips| - 1], root, i);
    }
  }

  /** The old name can be read back from the rewritten one: it is what
      follows the root and the separator. */
  lemma RootedNameRecoverable(root: string, name: string)
    ensures StartsWith(RootedName(root, name), root + "/")
    ensures RootedName(root, name)[|root| + 1..] == name
  {
    assert (root + "/" + name)[..|root| + 1] == root + "/";
  }

  /** A root that already ends in '/' (main.py's own test root does)
      yields a doubled separator. */
  lemma TrailingSlashDoubled(root: string, name: string)
    requires root != [] && root[|root| - 1] == '/'
    ensures RootedName(root, name)[|root| - 1..|root| + 1] == "//"
  {
  }

  /** `insert_root_path(files, files_root)`: rewrites each entry's name in
      place, in list order. */
  method InsertRootPath(files: array<Clip>, root: string)
    modifies files
    ensures files[..] == Rooted(old(files[..]), root)
  {
    ghost var before := files[..];
    for i := 0 to files.Length
      invariant files[..i] == Rooted(before[..i], root)
      invariant files[i..] == before[i..]
    {
      assert before[..i + 1][..i] == before[..i];
      files[i] := files[i].(name := RootedName(root, files[i].name));
    }
    assert before[..files.Length] == before;
  }

  // ---------------------------------------------------------------------
  // files_exists

  /** One progress line of the existence check ("File found ..." or
      "Files ... not found!"), kept as data. */
  datatype Probe = Found(path: string) | Missing(path: string)

  /** `files_exists(files)`: probes the files in order and stops at the
      first one that does not exist. `isFile` stands for `os.path.isfile`. */
  method FilesExist(files: seq<string>, isFile: string -> bool) returns (ok: bool, report: seq<Probe>)
    ensures ok <==> forall i :: 0 <= i < |files| ==> isFile(files[i])
    ensures |report| <= |files|
    ensures forall j :: 0 <= j < |report| ==> report[j].path == files[j]
    ensures forall j :: 0 <= j < |report| ==> (report[j].Found? <==> isFile(files[j]))
    ensures ok ==> |report| == |files|
    ensures !ok ==> |report| > 0 && report[|report| - 1].Missing?
    ensures forall j :: 0 <= j < |report| - 1 ==> report[j].Found?
  {
    report := [];
    for i := 0 to |files|
      invariant |report| == i
      invariant forall j :: 0 <= j < i ==> report[j] == Found(files[j])
      invariant forall j :: 0 <= j < i ==> isFile(files[j])
    {
      if isFile(files[i]) {
        report := report + [Found(files[i])];
      } else {
        report := report + [Missing(files[i])];
        return false, report;
      }
    }
    return true, report;
  }
}
