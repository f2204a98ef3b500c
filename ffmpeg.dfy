/** The command lines given to ffmpeg: one per clip, to trim it and fade it
    in and out, and one at the end, to concatenate the trimmed clips. The
    readers below are positional readers of exactly the vectors this module
    writes (not ffmpeg's own option parser); the round-trip lemmas say that
    each command carries exactly the clip's parameters. */
module Ffmpeg {
  import opened Text

  /** The two fades of a clip: where each starts and how long it lasts. */
  datatype Fades = Fades(inStart: int, inDuration: int, outStart: int, outDuration: int)

  /** What one cut command asks of ffmpeg. */
  datatype CutRequest = CutRequest(input: string, output: string, fades: Fades, from: int, to: int)

  /** What the concatenation command asks of ffmpeg. */
  datatype MergeRequest = MergeRequest(manifest: string, output: string)

  /** A cut as `cut_fade_video` issues it: the argument vector, and the
      output name the function returns. */
  datatype Cut = Cut(argv: seq<string>, output: string)

  const InTag := "fade=in:st="
  const DurationTag := ":d="
  const OutTag := ",fade=out:st="

  /** The `-vf` filter graph of `cut_fade_video`. */
  function FadeFilter(start: int, end: int, fade: int): string
  {
    FilterText(IntToString(start), IntToString(fade), IntToString(end - fade), IntToString(fade))
  }

  /** A fade-in from `inStart` lasting `inDuration`, then a fade-out from
      `outStart` lasting `outDuration`, all four already rendered. */
  function FilterText(inStart: string, inDuration: string, outStart: string, outDuration: string): string
  {
    InTag + inStart + DurationTag + inDuration + OutTag + outStart + DurationTag + outDuration
  }

  /** `cut_fade_video(input_video, output_name, start, end, fade_duration)`:
      the command it runs and the name it returns. */
  function CutFadeVideo(input: string, output: string, start: int, end: int, fade: int): (c: Cut)
    ensures c.output == output
  {
    Cut(CutArgs(input, output, FadeFilter(start, end, fade), IntToString(start), IntToString(end)), output)
  }

  /** The cut command asks ffmpeg to read `input`, fade in at `start` and
      out at `end - fade` (each for `fade`), keep `[start, end]`, drop the
      audio and overwrite `output`. */
  lemma CutFadeVideoRoundTrip(input: string, output: string, start: int, end: int, fade: int)
    ensures ParseCut(CutFadeVideo(input, output, start, end, fade).argv)
            == Some(CutRequest(input, output, Fades(start, fade, end - fade, fade), start, end))
  {
    var filter, from, to := FadeFilter(start, end, fade), IntToString(start), IntToString(end);
    FadeFilterRoundTrip(start, end, fade);
    IntToStringRoundTrip(start);
    IntToStringRoundTrip(end);
  }

  /** The argument vector of the cut, around its already rendered parts. */
  function CutArgs(input: string, output: string, filter: string, from: string, to: string): (argv: seq<string>)
    ensures |argv| == 12 && argv[3] == "-vf" && argv[10] == output
    ensures ParseCut(argv) == DecodeCut(input, output, filter, from, to)
  {
    var argv := ["ffmpeg",
                 "-i", input,
                 "-vf", filter,
                 "-ss", from,
                 "-to", to,
                 "-an", output, "-y"];
    assert argv[0] == "ffmpeg" && argv[1] == "-i" && argv[3] == "-vf";
    assert argv[5] == "-ss" && argv[7] == "-to" && argv[9] == "-an" && argv[11] == "-y";
    assert argv[2] == input && argv[4] == filter && argv[6] == from && argv[8] == to && argv[10] == output;
    argv
  }

  /** The concatenation command of `merge_video_files`. */
  function MergeArgs(manifest: string, output: string): (argv: seq<string>)
    ensures ParseMerge(argv) == Some(MergeRequest(manifest, output))
    ensures ParseCut(argv) == None
  {
    ["ffmpeg",
     "-f", "concat",
     "-i", manifest,
     "-c", "copy",
     "-an", output, "-y"]
  }

  // ---------------------------------------------------------------------
  // Reading the commands back

  /** Reads a filter graph of the shape FadeFilter writes. */
  function ParseFadeFilter(s: string): Option<Fades>
  {
    if StartsWith(s, InTag) then ParseFadeIn(s[|InTag|..]) else None
  }

  function ParseFadeIn(s: string): Option<Fades>
  {
    match Field(s, DurationTag)
    case None => None
    case Some((start, rest)) =>
      match Field(rest, OutTag)
      case None => None
      case Some((duration, rest')) => ParseFadeOut(start, duration, rest')
  }

  function ParseFadeOut(inStart: string, inDuration: string, s: string): Option<Fades>
  {
    match Field(s, DurationTag)
    case None => None
    case Some((start, duration)) => DecodeFades(inStart, inDuration, start, duration)
  }

  function DecodeFades(inStart: string, inDuration: string, outStart: string, outDuration: string): Option<Fades>
  {
    match (ParseInt(inStart), ParseInt(inDuration), ParseInt(outStart), ParseInt(outDuration))
    case (Some(a), Some(b), Some(c), Some(d)) => Some(Fades(a, b, c, d))
    case _ => None
  }

  /** Reads a cut command: fixed flags in fixed places, the filter graph
      and the two trim times decoded. */
  function ParseCut(argv: seq<string>): Option<CutRequest>
  {
    if |argv| == 12 && argv[0] == "ffmpeg" && argv[1] == "-i" && argv[3] == "-vf"
       && argv[5] == "-ss" && argv[7] == "-to" && argv[9] == "-an" && argv[11] == "-y"
    then DecodeCut(argv[2], argv[10], argv[4], argv[6], argv[8])
    else None
  }

  function DecodeCut(input: string, output: string, filter: string, from: string, to: string): Option<CutRequest>
  {
    match (ParseFadeFilter(filter), ParseInt(from), ParseInt(to))
    case (Some(fades), Some(from), Some(to)) => Some(CutRequest(input, output, fades, from, to))
    case _ => None
  }

  /** Reads a concatenation command. */
  function ParseMerge(argv: seq<string>): Option<MergeRequest>
  {
    if |argv| == 10 && argv[0] == "ffmpeg" && argv[1] == "-f" && argv[2] == "concat"
       && argv[3] == "-i" && argv[5] == "-c" && argv[6] == "copy" && argv[7] == "-an"
       && argv[9] == "-y"
    then Some(MergeRequest(argv[4], argv[8]))
    else None
  }

  // ---------------------------------------------------------------------
  // Round trips

  lemma NoDelimiterInNumber(i: int, c: char)
    requires c != '-' && !IsDigit(c)
    ensures c !in IntToString(i)
  {
  }

  lemma ParseFadeFilterOf(t: string)
    ensures ParseFadeFilter(InTag + t) == ParseFadeIn(t)
  {
    assert (InTag + t)[..|InTag|] == InTag;
    assert (InTag + t)[|InTag|..] == t;
  }

  lemma ParseFadeInOf(start: string, duration: string, rest: string)
    requires ':' !in start && ',' !in duration
    ensures ParseFadeIn(start + DurationTag + (duration + OutTag + rest)) == ParseFadeOut(start, duration, rest)
  {
    FieldOfJoined(start, DurationTag, duration + OutTag + rest);
    FieldOfJoined(duration, OutTag, rest);
  }

  lemma ParseFadeOutOf(inStart: string, inDuration: string, start: string, duration: string)
    requires ':' !in start
    ensures ParseFadeOut(inStart, inDuration, start + DurationTag + duration) == DecodeFades(inStart, inDuration, start, duration)
  {
    FieldOfJoined(start, DurationTag, duration);
  }

  lemma DecodeFadesOf(a: int, b: int, c: int, d: int)
    ensures DecodeFades(IntToString(a), IntToString(b), IntToString(c), IntToString(d)) == Some(Fades(a, b, c, d))
  {
    IntToStringRoundTrip(a);
    IntToStringRoundTrip(b);
    IntToStringRoundTrip(c);
    IntToStringRoundTrip(d);
  }

  /** The filter text around four fields reads back as those fields,
      provided no field holds the delimiter that ends it. */
  lemma {:induction false} FilterTextRoundTrip(a: string, b: string, c: string, d: string)
    requires ':' !in a && ',' !in b && ':' !in c
    ensures ParseFadeFilter(FilterText(a, b, c, d)) == DecodeFades(a, b, c, d)
  {
    var out := c + DurationTag + d;
    var afterIn := a + DurationTag + (b + OutTag + out);
    assert FilterText(a, b, c, d) == InTag + afterIn by {
      assert FilterText(a, b, c, d) == InTag + a + DurationTag + b + OutTag + c + DurationTag + d;
    }
    assert ParseFadeFilter(InTag + afterIn) == ParseFadeIn(afterIn) by {
      ParseFadeFilterOf(afterIn);
    }
    assert ParseFadeIn(afterIn) == ParseFadeOut(a, b, out) by {
      ParseFadeInOf(a, b, out);
    }
    assert ParseFadeOut(a, b, out) == DecodeFades(a, b, c, d) by {
      ParseFadeOutOf(a, b, c, d);
    }
  }

  /** The filter graph fades in at `start` and out at `end - fade`, each for
      `fade`, whatever the numbers: nothing is validated or clamped. */
  lemma FadeFilterRoundTrip(start: int, end: int, fade: int)
    ensures ParseFadeFilter(FadeFilter(start, end, fade)) == Some(Fades(start, fade, end - fade, fade))
  {
    var a, b, c := IntToString(start), IntToString(fade), IntToString(end - fade);
    assert ParseFadeFilter(FilterText(a, b, c, b)) == DecodeFades(a, b, c, b) by {
      NoDelimiterInNumber(start, ':');
      NoDelimiterInNumber(fade, ',');
      NoDelimiterInNumber(end - fade, ':');
      FilterTextRoundTrip(a, b, c, b);
    }
    assert DecodeFades(a, b, c, b) == Some(Fades(start, fade, end - fade, fade)) by {
      DecodeFadesOf(start, fade, end - fade, fade);
    }
  }

  /** A cut selects the video-filter mode, and its output file is the
      argument at index 10. */
  lemma CutOutputArgument(input: string, output: string, start: int, end: int, fade: int)
    ensures var argv := CutFadeVideo(input, output, start, end, fade).argv;
      |argv| == 12 && argv[3] == "-vf" && argv[10] == output
  {
    var filter, from, to := FadeFilter(start, end, fade), IntToString(start), IntToString(end);
    assert CutFadeVideo(input, output, start, end, fade).argv == CutArgs(input, output, filter, from, to);
  }

  /** A cut command is never mistaken for a concatenation command. */
  lemma CutIsNoMerge(input: string, output: string, start: int, end: int, fade: int)
    ensures ParseMerge(CutFadeVideo(input, output, start, end, fade).argv) == None
  {
  }

  /** When the fades overlap (`end - fade < start`), the fade-out still
      starts at `end - fade`, before the fade-in does. */
  lemma OverlappingFadesPassedThrough(start: int, end: int, fade: int)
    requires end - fade < start
    ensures var f := ParseFadeFilter(FadeFilter(start, end, fade)); f.Some? && f.value.outStart < f.value.inStart
  {
    FadeFilterRoundTrip(start, end, fade);
  }
}
