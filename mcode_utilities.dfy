/**
 * The G-code argument helpers: `code_seen` finds a parameter letter in the
 * current command's argument string, `code_value` parses the number after
 * it (temporarily cutting the string at the next 'E'), and
 * `gcode_get_destination` fills the destination of a move from the X, Y,
 * Z and E parameters and the feed rate from F.
 *
 * The argument string is a NUL-terminated `char` buffer; `strtod` is a
 * parameter of the operations that parse a number, applied to the C string
 * it is given.
 */
module McodeUtilities {
  import opened Marlin

  const NumAxis: nat := 4

  /** axis_codes: the parameter letter of each axis. */
  const AxisCodes: seq<char> := ['X', 'Y', 'Z', 'E']

  /** Index of the terminating NUL of the C string starting at `from` (|s| if none). */
  function CEnd(s: seq<char>, from: nat): (e: nat)
    requires from <= |s|
    ensures from <= e <= |s|
    ensures forall j :: from <= j < e ==> s[j] != '\0'
    ensures e < |s| ==> s[e] == '\0'
    decreases |s| - from
  {
    if from == |s| || s[from] == '\0' then from else CEnd(s, from + 1)
  }

  /** The C string starting at `from`, without its terminator. */
  function CString(s: seq<char>, from: nat): (t: seq<char>)
    requires from <= |s|
    ensures '\0' !in t
    ensures from + |t| <= |s| && t == s[from..from + |t|]
    ensures from + |t| == |s| || s[from + |t|] == '\0'
  {
    s[from..CEnd(s, from)]
  }

  /**
   * strchr on the C string starting at `from`: the first position holding
   * `c`, the terminator itself counting as a position when `c` is NUL.
   */
  function StrChr(s: seq<char>, from: nat, c: char): (r: Option<nat>)
    requires from <= |s|
    ensures r.Some? ==> from <= r.value <= CEnd(s, from) && r.value < |s| && s[r.value] == c
    ensures r.Some? ==> forall j :: from <= j < r.value ==> s[j] != c
    ensures r.None? ==> forall j :: from <= j < CEnd(s, from) ==> s[j] != c
    ensures r.None? && CEnd(s, from) < |s| ==> c != '\0'
    decreases |s| - from
  {
    if from == |s| then None
    else if s[from] == c then Some(from)
    else if s[from] == '\0' then None
    else StrChr(s, from + 1, c)
  }

  /** A letter other than NUL is found exactly when it occurs in the C string. */
  lemma StrChrFindsOccurrence(s: seq<char>, c: char)
    requires c != '\0'
    ensures StrChr(s, 0, c).Some? <==> c in CString(s, 0)
  {
    if c in CString(s, 0) {
      var j :| 0 <= j < |CString(s, 0)| && CString(s, 0)[j] == c;
      assert s[j] == c;
    }
  }

  /**
   * The text `code_value` hands to strtod for the letter at `p`: the C
   * string after the letter, cut at the first 'E' from the letter on.
   */
  function ParsedText(s: seq<char>, p: nat): seq<char>
    requires p < |s|
  {
    match StrChr(s, p, 'E')
    case Some(e) => CString(s[e := '\0'], p + 1)
    case None => CString(s, p + 1)
  }

  /**
   * The destination gcode_get_destination gives an axis with letter
   * `code` in the command `s`: the parsed value, plus the current position
   * when the axis moves relatively; the current position if the letter is
   * absent.
   */
  function AxisTarget(s: seq<char>, strtod: seq<char> -> real, code: char, relative: bool, current: real): real {
    match StrChr(s, 0, code)
    case None => current
    case Some(p) => strtod(ParsedText(s, p)) + (if relative then current else 0.0)
  }

  /** A C string cut at an earlier position `e` ends there. */
  lemma {:induction false} CutEnds(s: seq<char>, from: nat, e: nat)
    requires from <= e < |s|
    requires e <= CEnd(s, from)
    ensures CEnd(s[e := '\0'], from) == e
    decreases e - from
  {
    if from < e {
      CutEnds(s, from + 1, e);
    }
  }

  /**
   * For a letter other than 'E', the parsed text is exactly what lies
   * strictly between the letter and the next 'E' or the end of the string;
   * it contains no 'E'.
   */
  lemma ParsedTextStopsAtE(s: seq<char>, p: nat)
    requires p < CEnd(s, 0) && s[p] != 'E'
    ensures var t := ParsedText(s, p);
            && 'E' !in t && '\0' !in t
            && t == s[p + 1..p + 1 + |t|]
            && (p + 1 + |t| == |s| || s[p + 1 + |t|] in {'E', '\0'})
  {
    var t := ParsedText(s, p);
    match StrChr(s, p, 'E')
    case Some(e) =>
      CutEnds(s, p + 1, e);
      assert t == s[p + 1..e];
      assert forall j :: p < j < e ==> s[j] != 'E';
    case None =>
      assert t == s[p + 1..CEnd(s, p + 1)];
      assert CEnd(s, p + 1) == CEnd(s, p);
  }

  /** For the letter 'E' the cut falls on the letter itself: the text runs to the end. */
  lemma ParsedTextAfterE(s: seq<char>, p: nat)
    requires p < CEnd(s, 0) && s[p] == 'E'
    ensures ParsedText(s, p) == CString(s, p + 1)
  {
    assert StrChr(s, p, 'E') == Some(p);
    assert s[p := '\0'][p + 1..] == s[p + 1..];
    CEndOfSuffix(s, s[p := '\0'], p + 1);
  }

  /** CEnd looks only at the positions it scans. */
  lemma {:induction false} CEndOfSuffix(s: seq<char>, u: seq<char>, from: nat)
    requires from <= |s| == |u| && s[from..] == u[from..]
    ensures CEnd(s, from) == CEnd(u, from)
    decreases |s| - from
  {
    if from < |s| {
      assert s[from] == s[from..][0] == u[from..][0] == u[from];
      assert s[from + 1..] == s[from..][1..];
      assert u[from + 1..] == u[from..][1..];
      CEndOfSuffix(s, u, from + 1);
    }
  }

  /**
   * The parser globals: the argument buffer `current_command_args`,
   * `seen_pointer` (an index into it, None for NULL), the move's
   * `destination`, `current_position`, `feedrate` and the relative-mode
   * flags.
   */
  class CommandState {
    var args: array<char>
    var seenPointer: Option<nat>
    var destination: array<real>
    var currentPosition: array<real>
    var feedrate: real
    var axisRelative: seq<bool>
    var relativeMode: bool

    /** The buffer holds a C string, and the axis arrays have one entry per axis. */
    predicate Valid()
      reads this, args
    {
      && '\0' in args[..]
      && destination.Length == NumAxis && currentPosition.Length == NumAxis
      && destination != currentPosition
      && |axisRelative| == NumAxis
    }

    constructor (args: array<char>, currentPosition: array<real>, feedrate: real, axisRelative: seq<bool>, relativeMode: bool)
      requires '\0' in args[..] && currentPosition.Length == NumAxis && |axisRelative| == NumAxis
      ensures Valid() && fresh(destination)
      ensures this.args == args && this.currentPosition == currentPosition && seenPointer == None
      ensures this.feedrate == feedrate && this.axisRelative == axisRelative && this.relativeMode == relativeMode
    {
      this.args := args;
      seenPointer := None;
      destination := new real[NumAxis];
      this.currentPosition := currentPosition;
      this.feedrate := feedrate;
      this.axisRelative := axisRelative;
      this.relativeMode := relativeMode;
    }

    /** code_seen: point at the first occurrence of `code`; true iff there is one. */
    method CodeSeen(code: char) returns (found: bool)
      modifies this`seenPointer
      ensures seenPointer == StrChr(args[..], 0, code)
      ensures found <==> seenPointer.Some?
    {
      seenPointer := StrChr(args[..], 0, code);
      found := seenPointer.Some?;
    }

    /**
     * code_value after a successful code_seen: strtod of the text after the
     * seen letter, cut at the next 'E' by a NUL that is written and then
     * taken out again, so the buffer is the same on return.
     */
    method CodeValue(strtod: seq<char> -> real) returns (ret: real)
      requires seenPointer.Some? && seenPointer.value < CEnd(args[..], 0)
      modifies args
      ensures args[..] == old(args[..])
      ensures ret == strtod(ParsedText(args[..], seenPointer.value))
    {
      var p := seenPointer.value;
      var e := StrChr(args[..], p, 'E');
      if e.Some? {
        args[e.value] := '\0';
        ret := strtod(CString(args[..], p + 1));
        args[e.value] := 'E';
        assert args[..] == old(args[..]);
      } else {
        ret := strtod(CString(args[..], p + 1));
      }
    }

    /**
     * gcode_get_destination: each axis named in the command gets its parsed
     * value (plus the current position in relative mode), each other axis
     * its current position; the feed rate takes the F value only when it is
     * present and positive. The buffer and the current position are left
     * as they were.
     */
    method GetDestination(strtod: seq<char> -> real)
      requires Valid()
      modifies destination, args, this`seenPointer, this`feedrate
      ensures Valid() && args[..] == old(args[..])
      ensures seenPointer == StrChr(args[..], 0, 'F')
      ensures forall i :: 0 <= i < NumAxis && StrChr(args[..], 0, AxisCodes[i]).None? ==>
                destination[i] == currentPosition[i]
      ensures forall i :: 0 <= i < NumAxis && StrChr(args[..], 0, AxisCodes[i]).Some? ==>
                destination[i] == strtod(ParsedText(args[..], StrChr(args[..], 0, AxisCodes[i]).value))
                                  + (if axisRelative[i] || relativeMode then currentPosition[i] else 0.0)
      ensures StrChr(args[..], 0, 'F').None? ==> feedrate == old(feedrate)
      ensures StrChr(args[..], 0, 'F').Some? ==>
                var v := strtod(ParsedText(args[..], StrChr(args[..], 0, 'F').value));
                feedrate == if v > 0.0 then v else old(feedrate)
    {
      ghost var text := args[..];
      for i := 0 to NumAxis
        invariant Valid() && args[..] == text && feedrate == old(feedrate)
        invariant forall j :: 0 <= j < i ==>
          destination[j] == AxisTarget(text, strtod, AxisCodes[j], axisRelative[j] || relativeMode, currentPosition[j])
      {
        var seen := CodeSeen(AxisCodes[i]);
        if seen {
          assert seenPointer.value < CEnd(args[..], 0);
          var v := CodeValue(strtod);
          destination[i] := v + (if axisRelative[i] || relativeMode then currentPosition[i] else 0.0);
        } else {
          destination[i] := currentPosition[i];
        }
        assert destination[i] == AxisTarget(text, strtod, AxisCodes[i], axisRelative[i] || relativeMode, currentPosition[i]);
      }
      var seen := CodeSeen('F');
      if seen {
        assert seenPointer.value < CEnd(args[..], 0);
        var nextFeedrate := CodeValue(strtod);
        if nextFeedrate > 0.0 {
          feedrate := nextFeedrate;
        }
      }
    }
  }
}
