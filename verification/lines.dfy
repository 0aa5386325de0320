/**
 This module defines the vocabulary shared by every component of the demo:
 an optional value, and console lines of the shape `prefix + body + suffix`
 (for instance "[Strategy] Printing " + label + " document..."), together with
 the function that reads the body back out of such a line.

 A printed line is the text one output statement writes, as a `string`
 without its terminating newline; the output of an operation is the
 `seq<string>` of such lines. A label holding a newline character stays inside
 one element, although a console would show it on several lines.
 */
module Lines {

  /** Zero or one value: an empty or a set owning pointer, a parse that failed or succeeded. */
  datatype Option<+T> = None | Some(value: T)

  /** The console line made of `prefix`, then `body`, then `suffix`. */
  function Frame(prefix: string, body: string, suffix: string): string
  {
    prefix + body + suffix
  }

  /** Reads back the body of a line framed by `prefix` and `suffix`, or None when the line has another shape. */
  function Unframe(line: string, prefix: string, suffix: string): (r: Option<string>)
    ensures r.Some? ==> Frame(prefix, r.value, suffix) == line
  {
    if |prefix| + |suffix| <= |line|
       && line[..|prefix|] == prefix
       && line[|line| - |suffix|..] == suffix
    then
      var body := line[|prefix|..|line| - |suffix|];
      assert line == line[..|prefix|] + body + line[|line| - |suffix|..];
      Some(body)
    else
      None
  }

  /** The three parts of a framed line sit where the frame says they do. */
  lemma FrameParts(prefix: string, body: string, suffix: string)
    ensures var line := Frame(prefix, body, suffix);
      && |line| == |prefix| + |body| + |suffix|
      && line[..|prefix|] == prefix
      && line[|prefix|..|line| - |suffix|] == body
      && line[|line| - |suffix|..] == suffix
  {
    var line := Frame(prefix, body, suffix);
    assert line == prefix + (body + suffix);
    assert line[..|prefix|] == prefix;
    assert line == (prefix + body) + suffix;
    assert line[|line| - |suffix|..] == suffix;
    assert line[..|line| - |suffix|] == prefix + body;
    assert line[|prefix|..|line| - |suffix|] == (prefix + body)[|prefix|..];
  }

  /** Round trip: the body of a framed line is recovered exactly, whatever characters it holds. */
  lemma UnframeFrame(prefix: string, body: string, suffix: string)
    ensures Unframe(Frame(prefix, body, suffix), prefix, suffix) == Some(body)
  {
    FrameParts(prefix, body, suffix);
  }

  /** A line that disagrees with `prefix` at some position inside the prefix cannot be read with it. */
  lemma UnframeMismatch(line: string, prefix: string, suffix: string, i: nat)
    requires i < |prefix| && i < |line| && line[i] != prefix[i]
    ensures Unframe(line, prefix, suffix) == None
  {
  }
}
