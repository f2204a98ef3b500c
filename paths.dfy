/** The file names a job uses inside its output folder (the folder named by
    the job's UUID), built the way `os.path.join` builds them on POSIX. */
module Paths {
  import opened Text

  /** `os.path.join(a, b)` for two components: an absolute `b` replaces
      `a`; an empty `a`, or one already ending in '/', gets no extra '/'. */
  function Join(a: string, b: string): (r: string)
    ensures EndsWith(r, b)
    ensures StartsWith(b, "/") ==> r == b
    ensures !StartsWith(b, "/") ==> StartsWith(r, a)
    ensures !StartsWith(b, "/") && (a == [] || EndsWith(a, "/")) ==> r == a + b
    ensures !StartsWith(b, "/") && a != [] && !EndsWith(a, "/") ==> r == a + "/" + b
  {
    if StartsWith(b, "/") then
      EndsWithAppended([], b);
      b
    else if a == [] || EndsWith(a, "/") then
      EndsWithAppended(a, b);
      assert (a + b)[..|a|] == a;
      a + b
    else
      EndsWithAppended(a + "/", b);
      assert (a + "/" + b)[..|a|] == a;
      a + "/" + b
  }

  /** Joining one folder with two relative names gives one path only when
      the names are the same. */
  lemma JoinInjective(a: string, b1: string, b2: string)
    requires !StartsWith(b1, "/") && !StartsWith(b2, "/")
    requires Join(a, b1) == Join(a, b2)
    ensures b1 == b2
  {
    var p := if a == [] || EndsWith(a, "/") then a else a + "/";
    assert Join(a, b1) == p + b1 && Join(a, b2) == p + b2;
    assert b1 == (p + b1)[|p|..];
    assert b2 == (p + b2)[|p|..];
  }

  /** The suffix that marks a clip's intermediate file (main.py's
      `output_postfix`). */
  const Postfix := ".intermediate.mp4"

  /** Bare name of clip `index`'s intermediate file: `str(index) + output_postfix`. */
  function IntermediateName(index: nat): (r: string)
    ensures EndsWith(r, Postfix)
    ensures !StartsWith(r, "/")
  {
    var digits := NatToString(index);
    EndsWithAppended(digits, Postfix);
    assert (digits + Postfix)[0] == digits[0];
    digits + Postfix
  }

  /** Where clip `index` is written: inside the job folder. */
  function IntermediatePath(folder: string, index: nat): (r: string)
    ensures EndsWith(r, Postfix)
    ensures StartsWith(r, folder)
    ensures folder != [] && !EndsWith(folder, "/") ==> r == folder + "/" + IntermediateName(index)
  {
    Join(folder, IntermediateName(index))
  }

  function ListPath(folder: string): string
  {
    Join(folder, "list.txt")
  }

  function ResultPath(folder: string): string
  {
    Join(folder, "result.mp4")
  }

  function DonePath(folder: string): string
  {
    Join(folder, "DONE")
  }

  /** Different clips are written to different files. */
  lemma IntermediateNameInjective(i: nat, j: nat)
    requires IntermediateName(i) == IntermediateName(j)
    ensures i == j
  {
    var a, b := NatToString(i), NatToString(j);
    assert a + Postfix == b + Postfix;
    assert |a| == |b|;
    assert a == (a + Postfix)[..|a|];
    assert b == (b + Postfix)[..|b|];
    NatToStringRoundTrip(i);
    NatToStringRoundTrip(j);
  }

  lemma IntermediatePathInjective(folder: string, i: nat, j: nat)
    requires IntermediatePath(folder, i) == IntermediatePath(folder, j)
    ensures i == j
  {
    JoinInjective(folder, IntermediateName(i), IntermediateName(j));
    IntermediateNameInjective(i, j);
  }

  /** The manifest, the result and the completion marker do not carry the
      intermediate suffix, so the manifest's filter never selects them. */
  lemma ControlFilesNotIntermediate()
    ensures !EndsWith("list.txt", Postfix)
    ensures !EndsWith("result.mp4", Postfix)
    ensures !EndsWith("DONE", Postfix)
  {
  }

  /** An intermediate file is never one of the job's control files. */
  lemma IntermediateIsNoControlFile(folder: string, index: nat)
    ensures IntermediatePath(folder, index) != ListPath(folder)
    ensures IntermediatePath(folder, index) != ResultPath(folder)
    ensures IntermediatePath(folder, index) != DonePath(folder)
  {
    var p := IntermediatePath(folder, index);
    if p == ListPath(folder) {
      JoinInjective(folder, IntermediateName(index), "list.txt");
      assert false;
    }
    if p == ResultPath(folder) {
      JoinInjective(folder, IntermediateName(index), "result.mp4");
      assert false;
    }
    if p == DonePath(folder) {
      JoinInjective(folder, IntermediateName(index), "DONE");
      assert false;
    }
  }
}
