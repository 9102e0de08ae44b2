/**
 * The first-generation streaming pipeline: the parser of the upstream's server-sent-event lines,
 * the coalescing of thought parts into one tag-wrapped part (within one part list, and across the
 * chunks of a stream with a buffer), and the orchestrator that frames the chunks for the client.
 */
module LegacyStreaming {
  import opened Wrappers
  import opened Json
  import opened Strs
  import opened Gemini
  import CoreStreaming
  import LegacyOpenAI
  import Formatters

  // ---------------------------------------------------------------------------------------------
  // Thought parts

  /** `part.thought and part.text`: a thought flag set and a non-empty text. */
  predicate IsThought(p: Part) {
    p.thought == Some(true) && HasText(p)
  }

  /** What the thought buffer holds: the texts of thought parts, none of them empty. */
  predicate NonEmptyTexts(buffer: seq<string>) {
    forall k :: 0 <= k < |buffer| ==> buffer[k] != ""
  }

  /** `GeminiPart(text=f"{start_tag}{full_thought}{end_tag}", thought=True)`. */
  function WrappedPart(buffer: seq<string>, startTag: string, endTag: string): Part {
    Part(Some(startTag + Concat(buffer) + endTag), None, None, None, Some(true))
  }

  lemma WrappedIsThought(buffer: seq<string>, startTag: string, endTag: string)
    requires buffer != [] && NonEmptyTexts(buffer)
    ensures IsThought(WrappedPart(buffer, startTag, endTag))
  {
    assert Concat(buffer) == buffer[0] + Concat(buffer[1..]);
  }

  /** The parts a loop has produced so far and the thought texts it still holds. */
  datatype Scanned = Scanned(parts: seq<Part>, buffer: seq<string>)

  /**
   * One part of the loop: a thought goes to the buffer; any other part first releases the
   * buffered thoughts as one wrapped part, then is kept as it is.
   */
  function ScanPart(p: Part, buffer: seq<string>, startTag: string, endTag: string): Scanned {
    if IsThought(p) then Scanned([], buffer + [p.text.value])
    else if buffer != [] then Scanned([WrappedPart(buffer, startTag, endTag), p], [])
    else Scanned([p], [])
  }

  function Scan(parts: seq<Part>, buffer: seq<string>, startTag: string, endTag: string): Scanned
    decreases |parts|
  {
    if parts == [] then Scanned([], buffer)
    else
      var here := ScanPart(parts[0], buffer, startTag, endTag);
      var rest := Scan(parts[1..], here.buffer, startTag, endTag);
      Scanned(here.parts + rest.parts, rest.buffer)
  }

  lemma ScanStep(parts: seq<Part>, i: nat, buffer: seq<string>, startTag: string, endTag: string)
    requires i < |parts|
    ensures var here := ScanPart(parts[i], buffer, startTag, endTag);
      var rest := Scan(parts[i + 1..], here.buffer, startTag, endTag);
      Scan(parts[i..], buffer, startTag, endTag) == Scanned(here.parts + rest.parts, rest.buffer)
  {
    assert parts[i..][0] == parts[i];
    assert parts[i..][1..] == parts[i + 1..];
  }

  /** The parts already produced in front of what the rest of the list gives. */
  function AfterScanned(done: seq<Part>, sc: Scanned): Scanned {
    Scanned(done + sc.parts, sc.buffer)
  }

  lemma AfterScanPart(done: seq<Part>, here: Scanned, rest: Scanned)
    ensures AfterScanned(done, Scanned(here.parts + rest.parts, rest.buffer)) == AfterScanned(done + here.parts, rest)
  {
    assert done + (here.parts + rest.parts) == (done + here.parts) + rest.parts;
  }

  /** The loop over one part list, shared by the list and the stream versions. */
  method ScanParts(parts: seq<Part>, buffer: seq<string>, startTag: string, endTag: string) returns (out: seq<Part>, held: seq<string>)
    ensures Scanned(out, held) == Scan(parts, buffer, startTag, endTag)
  {
    out := [];
    held := buffer;
    assert parts[0..] == parts;
    assert AfterScanned([], Scan(parts, buffer, startTag, endTag)) == Scan(parts, buffer, startTag, endTag);
    for i := 0 to |parts|
      invariant Scan(parts, buffer, startTag, endTag) == AfterScanned(out, Scan(parts[i..], held, startTag, endTag))
    {
      ScanStep(parts, i, held, startTag, endTag);
      ghost var here := ScanPart(parts[i], held, startTag, endTag);
      AfterScanPart(out, here, Scan(parts[i + 1..], here.buffer, startTag, endTag));
      ghost var before := out;
      if IsThought(parts[i]) {
        held := held + [parts[i].text.value];
      } else {
        if held != [] {
          out := out + [WrappedPart(held, startTag, endTag)];
          held := [];
        }
        out := out + [parts[i]];
      }
      assert out == before + here.parts && held == here.buffer;
    }
    assert parts[|parts|..] == [];
    assert out + [] == out;
  }

  /** The buffered thoughts at the end, as one wrapped part if there are any. */
  function Flush(buffer: seq<string>, startTag: string, endTag: string): seq<Part> {
    if buffer == [] then [] else [WrappedPart(buffer, startTag, endTag)]
  }

  /**
   * `_coalesce_and_wrap_thoughts`: an empty list stays empty; otherwise the tags are unpacked
   * (ValueError unless there are exactly two) and every run of thoughts becomes one wrapped part.
   */
  function Coalesce(parts: seq<Part>, tags: seq<string>): (r: Result<seq<Part>, Exception>)
    ensures parts == [] ==> r == Ok([])
    ensures r.Err? <==> parts != [] && |tags| != 2
    ensures r.Err? ==> r.error == ValueError
  {
    if parts == [] then Ok([])
    else if |tags| != 2 then Err(ValueError)
    else
      var sc := Scan(parts, [], tags[0], tags[1]);
      Ok(sc.parts + Flush(sc.buffer, tags[0], tags[1]))
  }

  method CoalesceAndWrapThoughts(parts: seq<Part>, tags: seq<string>) returns (r: Result<seq<Part>, Exception>)
    ensures r == Coalesce(parts, tags)
  {
    if parts == [] {
      return Ok([]);
    }
    if |tags| != 2 {
      return Err(ValueError);
    }
    var out, held := ScanParts(parts, [], tags[0], tags[1]);
    if held != [] {
      out := out + [WrappedPart(held, tags[0], tags[1])];
    } else {
      assert out + [] == out;
    }
    return Ok(out);
  }

  // Properties of the coalescing

  /** The parts that are not thoughts, in order. */
  function NonThoughts(ps: seq<Part>): (r: seq<Part>)
    ensures |r| <= |ps|
  {
    if ps == [] then [] else (if IsThought(ps[0]) then [] else [ps[0]]) + NonThoughts(ps[1..])
  }

  lemma {:induction false} NonThoughtsAppend(a: seq<Part>, b: seq<Part>)
    ensures NonThoughts(a + b) == NonThoughts(a) + NonThoughts(b)
  {
    if a == [] {
      assert a + b == b;
    } else {
      assert (a + b)[0] == a[0];
      assert (a + b)[1..] == a[1..] + b;
      NonThoughtsAppend(a[1..], b);
    }
  }

  /** The texts of the thought parts, in order. */
  function ThoughtTexts(ps: seq<Part>): seq<string> {
    if ps == [] then [] else (if IsThought(ps[0]) then [ps[0].text.value] else []) + ThoughtTexts(ps[1..])
  }

  lemma {:induction false} ThoughtTextsAppend(a: seq<Part>, b: seq<Part>)
    ensures ThoughtTexts(a + b) == ThoughtTexts(a) + ThoughtTexts(b)
  {
    if a == [] {
      assert a + b == b;
    } else {
      var head := if IsThought(a[0]) then [a[0].text.value] else [];
      assert (a + b)[0] == a[0];
      assert (a + b)[1..] == a[1..] + b;
      ThoughtTextsAppend(a[1..], b);
      calc {
        ThoughtTexts(a + b);
        head + ThoughtTexts(a[1..] + b);
        head + (ThoughtTexts(a[1..]) + ThoughtTexts(b));
        { AppendAssoc(head, ThoughtTexts(a[1..]), ThoughtTexts(b)); }
        (head + ThoughtTexts(a[1..])) + ThoughtTexts(b);
        ThoughtTexts(a) + ThoughtTexts(b);
      }
    }
  }

  /** Two thought parts never stand next to each other. */
  predicate NoAdjacentThoughts(ps: seq<Part>) {
    forall k :: 0 <= k < |ps| - 1 ==> !(IsThought(ps[k]) && IsThought(ps[k + 1]))
  }

  /** The scan keeps every non-thought part in order, and the buffer only ever holds non-empty texts. */
  lemma {:induction false} ScanKeepsNonThoughts(parts: seq<Part>, buffer: seq<string>, startTag: string, endTag: string)
    requires NonEmptyTexts(buffer)
    ensures NonThoughts(Scan(parts, buffer, startTag, endTag).parts) == NonThoughts(parts)
    ensures NonEmptyTexts(Scan(parts, buffer, startTag, endTag).buffer)
    decreases |parts|
  {
    if parts != [] {
      var here := ScanPart(parts[0], buffer, startTag, endTag);
      assert NonEmptyTexts(here.buffer);
      ScanKeepsNonThoughts(parts[1..], here.buffer, startTag, endTag);
      var rest := Scan(parts[1..], here.buffer, startTag, endTag);
      NonThoughtsAppend(here.parts, rest.parts);
      assert parts == [parts[0]] + parts[1..];
      NonThoughtsAppend([parts[0]], parts[1..]);
      if !IsThought(parts[0]) && buffer != [] {
        WrappedIsThought(buffer, startTag, endTag);
        NonThoughtsAppend([here.parts[0]], [parts[0]]);
        assert here.parts == [here.parts[0]] + [parts[0]];
      }
    }
  }

  /** The scan's output never holds two thoughts side by side, and never ends with one. */
  lemma {:induction false} ScanSeparatesThoughts(parts: seq<Part>, buffer: seq<string>, startTag: string, endTag: string)
    ensures var out := Scan(parts, buffer, startTag, endTag).parts;
      NoAdjacentThoughts(out) && (out != [] ==> !IsThought(out[|out| - 1]))
    decreases |parts|
  {
    if parts != [] {
      var here := ScanPart(parts[0], buffer, startTag, endTag);
      ScanSeparatesThoughts(parts[1..], here.buffer, startTag, endTag);
      var rest := Scan(parts[1..], here.buffer, startTag, endTag).parts;
      var out := here.parts + rest;
      assert out == Scan(parts, buffer, startTag, endTag).parts;
      assert here.parts != [] ==> !IsThought(here.parts[|here.parts| - 1]);
      assert NoAdjacentThoughts(here.parts);
      forall k | 0 <= k < |out| - 1
        ensures !(IsThought(out[k]) && IsThought(out[k + 1]))
      {
        if k + 1 < |here.parts| {
          assert out[k] == here.parts[k] && out[k + 1] == here.parts[k + 1];
        } else if k + 1 == |here.parts| {
          assert out[k] == here.parts[|here.parts| - 1];
        } else {
          assert out[k] == rest[k - |here.parts|] && out[k + 1] == rest[k + 1 - |here.parts|];
        }
      }
    }
  }

  /** Without a part that is not a thought, everything goes to the buffer and nothing comes out. */
  lemma {:induction false} ScanAllThoughts(parts: seq<Part>, buffer: seq<string>, startTag: string, endTag: string)
    requires forall k :: 0 <= k < |parts| ==> IsThought(parts[k])
    ensures Scan(parts, buffer, startTag, endTag) == Scanned([], buffer + ThoughtTexts(parts))
    decreases |parts|
  {
    if parts != [] {
      ScanAllThoughts(parts[1..], buffer + [parts[0].text.value], startTag, endTag);
      assert buffer + [parts[0].text.value] + ThoughtTexts(parts[1..]) == buffer + ThoughtTexts(parts);
    }
  }

  /** The scan never produces more parts than it was given plus the run it started with. */
  lemma {:induction false} ScanShrinks(parts: seq<Part>, buffer: seq<string>, startTag: string, endTag: string)
    ensures var sc := Scan(parts, buffer, startTag, endTag);
      |sc.parts| + (if sc.buffer == [] then 0 else 1) <= |parts| + (if buffer == [] then 0 else 1)
    decreases |parts|
  {
    if parts != [] {
      ScanShrinks(parts[1..], ScanPart(parts[0], buffer, startTag, endTag).buffer, startTag, endTag);
    }
  }

  /**
   * With well-formed tags, the coalesced list keeps every non-thought part in order, has no two
   * thoughts side by side, and is no longer than the input.
   */
  lemma CoalesceProperties(parts: seq<Part>, startTag: string, endTag: string)
    ensures var r := Coalesce(parts, [startTag, endTag]);
      r.Ok? && NonThoughts(r.value) == NonThoughts(parts) && NoAdjacentThoughts(r.value) && |r.value| <= |parts|
  {
    var tags := [startTag, endTag];
    if parts != [] {
      var sc := Scan(parts, [], startTag, endTag);
      var out := sc.parts + Flush(sc.buffer, startTag, endTag);
      assert Coalesce(parts, tags) == Ok(out);
      ScanKeepsNonThoughts(parts, [], startTag, endTag);
      ScanSeparatesThoughts(parts, [], startTag, endTag);
      ScanShrinks(parts, [], startTag, endTag);
      NonThoughtsAppend(sc.parts, Flush(sc.buffer, startTag, endTag));
      if sc.buffer != [] {
        WrappedIsThought(sc.buffer, startTag, endTag);
        assert NonThoughts(Flush(sc.buffer, startTag, endTag)) == [];
        AppendAfterNonThought(sc.parts, WrappedPart(sc.buffer, startTag, endTag));
      } else {
        assert out == sc.parts;
      }
    }
  }

  /** One part after a list that has no adjacent thoughts and does not end with one keeps that property. */
  lemma AppendAfterNonThought(ps: seq<Part>, p: Part)
    requires NoAdjacentThoughts(ps) && (ps != [] ==> !IsThought(ps[|ps| - 1]))
    ensures NoAdjacentThoughts(ps + [p])
  {
    var out := ps + [p];
    forall k | 0 <= k < |out| - 1
      ensures !(IsThought(out[k]) && IsThought(out[k + 1]))
    {
      assert out[k] == ps[k];
      if k + 1 < |ps| {
        assert out[k + 1] == ps[k + 1];
      }
    }
  }

  /** A one-element list's thought texts. */
  lemma ThoughtTextsOne(p: Part)
    ensures ThoughtTexts([p]) == if IsThought(p) then [p.text.value] else []
  {
    assert [p][1..] == [];
  }

  lemma ConcatOne(s: string)
    ensures Concat([s]) == s
  {
    assert [s][1..] == [];
  }

  /** With empty tags, the thought texts all come through, in order: coalescing only joins them. */
  lemma {:induction false} ScanKeepsThoughtText(parts: seq<Part>, buffer: seq<string>)
    requires NonEmptyTexts(buffer)
    ensures var sc := Scan(parts, buffer, "", "");
      Concat(buffer) + Concat(ThoughtTexts(parts)) == Concat(ThoughtTexts(sc.parts)) + Concat(sc.buffer)
    decreases |parts|
  {
    if parts != [] {
      var p := parts[0];
      var later := parts[1..];
      var here := ScanPart(p, buffer, "", "");
      var rest := Scan(later, here.buffer, "", "");
      assert Scan(parts, buffer, "", "") == Scanned(here.parts + rest.parts, rest.buffer);
      assert NonEmptyTexts(here.buffer);
      ScanKeepsThoughtText(later, here.buffer);
      assert parts == [p] + later;
      ThoughtTextsAppend([p], later);
      ThoughtTextsOne(p);
      ThoughtTextsAppend(here.parts, rest.parts);
      if IsThought(p) {
        assert here.parts + rest.parts == rest.parts;
        ThoughtStep(buffer, p.text.value, ThoughtTexts(later));
      } else if buffer != [] {
        assert here.parts == [WrappedPart(buffer, "", ""), p] && here.buffer == [];
        assert ThoughtTexts(parts) == ThoughtTexts(later);
        WrappedCase(buffer, p, ThoughtTexts(later), rest.parts, rest.buffer);
      } else {
        assert ThoughtTexts(parts) == ThoughtTexts(later);
        assert ThoughtTexts(here.parts) == [];
        assert ThoughtTexts(here.parts + rest.parts) == ThoughtTexts(rest.parts);
        assert Concat(buffer) == [] && Concat(here.buffer) == [];
      }
    }
  }

  lemma WrappedUntagged(buffer: seq<string>)
    ensures WrappedPart(buffer, "", "").text == Some(Concat(buffer))
  {
    assert "" + Concat(buffer) + "" == Concat(buffer);
  }

  lemma ThoughtStep(buffer: seq<string>, t: string, later: seq<string>)
    ensures Concat(buffer) + Concat([t] + later) == Concat(buffer + [t]) + Concat(later)
  {
    ConcatAppend(buffer, [t]);
    ConcatAppend([t], later);
    ConcatOne(t);
    assert Concat(buffer) + (t + Concat(later)) == (Concat(buffer) + t) + Concat(later);
  }

  lemma WrappedCase(buffer: seq<string>, p: Part, laterTexts: seq<string>, restParts: seq<Part>, restBuffer: seq<string>)
    requires buffer != [] && NonEmptyTexts(buffer) && !IsThought(p)
    requires Concat([]) + Concat(laterTexts) == Concat(ThoughtTexts(restParts)) + Concat(restBuffer)
    ensures Concat(buffer) + Concat(laterTexts) == Concat(ThoughtTexts([WrappedPart(buffer, "", ""), p] + restParts)) + Concat(restBuffer)
  {
    WrappedStep(buffer, p, restParts);
    assert Concat([]) == [];
    assert Concat(laterTexts) == Concat(ThoughtTexts(restParts)) + Concat(restBuffer);
    AppendAssoc(Concat(buffer), Concat(ThoughtTexts(restParts)), Concat(restBuffer));
  }

  lemma WrappedStep(buffer: seq<string>, p: Part, later: seq<Part>)
    requires buffer != [] && NonEmptyTexts(buffer) && !IsThought(p)
    ensures ThoughtTexts([WrappedPart(buffer, "", ""), p] + later) == [Concat(buffer)] + ThoughtTexts(later)
    ensures Concat([Concat(buffer)] + ThoughtTexts(later)) == Concat(buffer) + Concat(ThoughtTexts(later))
  {
    var w := WrappedPart(buffer, "", "");
    WrappedIsThought(buffer, "", "");
    WrappedUntagged(buffer);
    var tail := [p] + later;
    assert [w, p] + later == [w] + tail;
    ThoughtTextsAppend([w], tail);
    ThoughtTextsAppend([p], later);
    ThoughtTextsOne(w);
    ThoughtTextsOne(p);
    assert ThoughtTexts(tail) == ThoughtTexts(later);
    ConcatAppend([Concat(buffer)], ThoughtTexts(later));
    ConcatOne(Concat(buffer));
  }

  lemma CoalesceKeepsThoughtText(parts: seq<Part>)
    ensures var r := Coalesce(parts, ["", ""]);
      r.Ok? && Concat(ThoughtTexts(r.value)) == Concat(ThoughtTexts(parts))
  {
    if parts != [] {
      var sc := Scan(parts, [], "", "");
      ScanKeepsThoughtText(parts, []);
      assert Concat([]) == [];
      assert Concat(ThoughtTexts(parts)) == Concat(ThoughtTexts(sc.parts)) + Concat(sc.buffer);
      ScanKeepsNonThoughts(parts, [], "", "");
      var flush := Flush(sc.buffer, "", "");
      ThoughtTextsAppend(sc.parts, flush);
      if sc.buffer != [] {
        WrappedIsThought(sc.buffer, "", "");
        WrappedUntagged(sc.buffer);
        ThoughtTextsOne(WrappedPart(sc.buffer, "", ""));
        ConcatAppend(ThoughtTexts(sc.parts), [Concat(sc.buffer)]);
        ConcatOne(Concat(sc.buffer));
        assert ThoughtTexts(Flush(sc.buffer, "", "")) == [Concat(sc.buffer)];
      } else {
        assert ThoughtTexts(flush) == [];
        assert ThoughtTexts(sc.parts) + [] == ThoughtTexts(sc.parts);
      }
    }
  }

  // The coalesced list, defined run by run

  /** A maximal stretch of a part list: one part that is not a thought, or the texts of consecutive thoughts. */
  datatype Run = Kept(part: Part) | ThoughtRun(texts: seq<string>)

  /** How many thoughts the list starts with. */
  function LeadingThoughts(ps: seq<Part>): (n: nat)
    ensures n <= |ps|
    ensures forall k :: 0 <= k < n ==> IsThought(ps[k])
    ensures n < |ps| ==> !IsThought(ps[n])
    ensures ps != [] && IsThought(ps[0]) ==> n >= 1
    decreases |ps|
  {
    if ps == [] || !IsThought(ps[0]) then 0 else 1 + LeadingThoughts(ps[1..])
  }

  /** The list cut into its runs: every maximal stretch of thoughts is one run. */
  function Runs(ps: seq<Part>): seq<Run>
    decreases |ps|
  {
    if ps == [] then []
    else if IsThought(ps[0]) then
      var n := LeadingThoughts(ps);
      [ThoughtRun(ThoughtTexts(ps[..n]))] + Runs(ps[n..])
    else [Kept(ps[0])] + Runs(ps[1..])
  }

  /** Each run as one part: a kept part as it is, a run of thoughts as one tag-wrapped thought. */
  function Wrap(runs: seq<Run>, startTag: string, endTag: string): seq<Part> {
    if runs == [] then []
    else
      (match runs[0]
       case Kept(p) => [p]
       case ThoughtRun(texts) => [WrappedPart(texts, startTag, endTag)])
      + Wrap(runs[1..], startTag, endTag)
  }

  /** The texts of the first `n` parts, when they are all thoughts, are all kept. */
  lemma {:induction false} ThoughtTextsOfThoughts(ps: seq<Part>)
    requires forall k :: 0 <= k < |ps| ==> IsThought(ps[k])
    ensures |ThoughtTexts(ps)| == |ps|
    ensures NonEmptyTexts(ThoughtTexts(ps))
    decreases |ps|
  {
    if ps != [] {
      ThoughtTextsOfThoughts(ps[1..]);
    }
  }

  /** No run of thoughts is empty or holds an empty text, and two of them never follow each other. */
  predicate Maximal(rs: seq<Run>) {
    && (forall k :: 0 <= k < |rs| ==> rs[k].ThoughtRun? ==> rs[k].texts != [] && NonEmptyTexts(rs[k].texts))
    && (forall k :: 0 <= k < |rs| - 1 ==> !(rs[k].ThoughtRun? && rs[k + 1].ThoughtRun?))
  }

  /** The runs of any list are maximal. */
  lemma {:induction false} RunsAreMaximal(ps: seq<Part>)
    ensures Maximal(Runs(ps))
    decreases |ps|
  {
    if ps != [] {
      var rs := Runs(ps);
      var n := if IsThought(ps[0]) then LeadingThoughts(ps) else 1;
      var head := if IsThought(ps[0]) then ThoughtRun(ThoughtTexts(ps[..n])) else Kept(ps[0]);
      var tail := Runs(ps[n..]);
      assert rs == [head] + tail;
      RunsAreMaximal(ps[n..]);
      if IsThought(ps[0]) {
        ThoughtTextsOfThoughts(ps[..n]);
        if tail != [] {
          assert ps[n..][0] == ps[n];
          assert tail[0].Kept?;
        }
      }
      forall k | 0 <= k < |rs|
        ensures rs[k].ThoughtRun? ==> rs[k].texts != [] && NonEmptyTexts(rs[k].texts)
      {
        if k > 0 {
          assert rs[k] == tail[k - 1];
        } else {
          assert rs[k] == head;
        }
      }
      forall k | 0 <= k < |rs| - 1
        ensures !(rs[k].ThoughtRun? && rs[k + 1].ThoughtRun?)
      {
        assert rs[k + 1] == tail[k];
        if k > 0 {
          assert rs[k] == tail[k - 1];
        } else {
          assert rs[k] == head;
        }
      }
    }
  }

  /** The wrapped runs of a list are its leading thoughts, wrapped if there are any, then the rest. */
  lemma RunsAfterLeading(ps: seq<Part>, startTag: string, endTag: string)
    ensures var n := LeadingThoughts(ps);
      Wrap(Runs(ps), startTag, endTag) == Flush(ThoughtTexts(ps[..n]), startTag, endTag) + Wrap(Runs(ps[n..]), startTag, endTag)
  {
    var n := LeadingThoughts(ps);
    if ps != [] && IsThought(ps[0]) {
      ThoughtTextsOfThoughts(ps[..n]);
      var rest := Runs(ps[n..]);
      var rs := [ThoughtRun(ThoughtTexts(ps[..n]))] + rest;
      assert Runs(ps) == rs;
      assert rs[0] == ThoughtRun(ThoughtTexts(ps[..n])) && rs[1..] == rest;
    } else {
      assert ps[..n] == [] && ps[n..] == ps;
    }
  }

  /** A thought at the head of the list only moves into the buffer. */
  lemma ScanWrapsThought(parts: seq<Part>, buffer: seq<string>, startTag: string, endTag: string)
    requires parts != [] && IsThought(parts[0])
    ensures var n := LeadingThoughts(parts);
      var m := LeadingThoughts(parts[1..]);
      && Scan(parts, buffer, startTag, endTag) == Scan(parts[1..], buffer + [parts[0].text.value], startTag, endTag)
      && buffer + ThoughtTexts(parts[..n]) == (buffer + [parts[0].text.value]) + ThoughtTexts(parts[1..][..m])
      && parts[n..] == parts[1..][m..]
  {
    var p := parts[0];
    var later := parts[1..];
    var n := LeadingThoughts(parts);
    var m := LeadingThoughts(later);
    assert n == m + 1;
    assert parts[..n] == [p] + later[..m];
    ThoughtTextsAppend([p], later[..m]);
    ThoughtTextsOne(p);
    AppendAssoc(buffer, [p.text.value], ThoughtTexts(later[..m]));
    assert parts[n..] == later[m..];
    assert Scan(later, buffer + [p.text.value], startTag, endTag).parts == [] + Scan(later, buffer + [p.text.value], startTag, endTag).parts;
  }

  /** A part that is not a thought releases the buffer, then stays; the runs after it are all that follows. */
  lemma ScanWrapsKept(parts: seq<Part>, buffer: seq<string>, startTag: string, endTag: string)
    requires parts != [] && !IsThought(parts[0])
    requires var rest := Scan(parts[1..], [], startTag, endTag);
      rest.parts + Flush(rest.buffer, startTag, endTag) == Wrap(Runs(parts[1..]), startTag, endTag)
    ensures var sc := Scan(parts, buffer, startTag, endTag);
      sc.parts + Flush(sc.buffer, startTag, endTag) == Flush(buffer, startTag, endTag) + Wrap(Runs(parts), startTag, endTag)
  {
    var p := parts[0];
    var later := parts[1..];
    var here := ScanPart(p, buffer, startTag, endTag);
    assert here.parts == Flush(buffer, startTag, endTag) + [p] && here.buffer == [];
    var rest := Scan(later, [], startTag, endTag);
    assert Scan(parts, buffer, startTag, endTag) == Scanned(here.parts + rest.parts, rest.buffer);
    var tail := Wrap(Runs(later), startTag, endTag);
    var rs := Runs(parts);
    assert rs == [Kept(p)] + Runs(later);
    assert rs[0] == Kept(p) && rs[1..] == Runs(later);
    assert Wrap(rs, startTag, endTag) == [p] + tail;
    calc {
      (here.parts + rest.parts) + Flush(rest.buffer, startTag, endTag);
      { AppendAssoc(here.parts, rest.parts, Flush(rest.buffer, startTag, endTag)); }
      here.parts + tail;
      (Flush(buffer, startTag, endTag) + [p]) + tail;
      { AppendAssoc(Flush(buffer, startTag, endTag), [p], tail); }
      Flush(buffer, startTag, endTag) + ([p] + tail);
    }
  }

  /**
   * The scan, with a buffer and the final flush, gives the buffer joined to the list's leading
   * thoughts, wrapped if non-empty, then the wrapped runs of what follows them.
   */
  lemma {:induction false} ScanWrapsRuns(parts: seq<Part>, buffer: seq<string>, startTag: string, endTag: string)
    ensures var sc := Scan(parts, buffer, startTag, endTag);
      var n := LeadingThoughts(parts);
      sc.parts + Flush(sc.buffer, startTag, endTag)
        == Flush(buffer + ThoughtTexts(parts[..n]), startTag, endTag) + Wrap(Runs(parts[n..]), startTag, endTag)
    decreases |parts|
  {
    var n := LeadingThoughts(parts);
    if parts == [] {
      assert buffer + ThoughtTexts([]) == buffer;
    } else if IsThought(parts[0]) {
      ScanWrapsThought(parts, buffer, startTag, endTag);
      ScanWrapsRuns(parts[1..], buffer + [parts[0].text.value], startTag, endTag);
    } else {
      ScanWrapsRuns(parts[1..], [], startTag, endTag);
      RunsAfterLeading(parts[1..], startTag, endTag);
      var m := LeadingThoughts(parts[1..]);
      assert [] + ThoughtTexts(parts[1..][..m]) == ThoughtTexts(parts[1..][..m]);
      ScanWrapsKept(parts, buffer, startTag, endTag);
      assert parts[..n] == [] && parts[n..] == parts;
      assert buffer + ThoughtTexts([]) == buffer;
    }
  }

  /**
   * With two tags, coalescing turns every maximal run of thoughts into one thought part holding
   * the start tag, the run's texts joined, and the end tag, and keeps every other part where it is.
   */
  lemma CoalesceWrapsRuns(parts: seq<Part>, startTag: string, endTag: string)
    ensures Coalesce(parts, [startTag, endTag]) == Ok(Wrap(Runs(parts), startTag, endTag))
  {
    if parts != [] {
      ScanWrapsRuns(parts, [], startTag, endTag);
      RunsAfterLeading(parts, startTag, endTag);
      var n := LeadingThoughts(parts);
      assert [] + ThoughtTexts(parts[..n]) == ThoughtTexts(parts[..n]);
    }
  }

  // ---------------------------------------------------------------------------------------------
  // Thoughts across the chunks of a stream

  /** What one chunk gives: the chunk to yield, if any, and the thought buffer after it. */
  datatype ChunkOutcome = ChunkOutcome(out: Option<Response>, buffer: seq<string>)

  /**
   * One chunk of `_transform_wrap_thoughts`.  A chunk without candidates passes through (a
   * candidate's content is a model instance, so never falsy); otherwise only the first
   * candidate's parts are scanned, and the chunk is yielded, with that candidate alone, only if
   * the scan produced parts.
   */
  function ChunkStep(chunk: Response, buffer: seq<string>, startTag: string, endTag: string): ChunkOutcome {
    if chunk.candidates == [] then ChunkOutcome(Some(chunk), buffer)
    else
      var c := chunk.candidates[0];
      var sc := Scan(c.content.parts, buffer, startTag, endTag);
      if sc.parts == [] then ChunkOutcome(None, sc.buffer)
      else ChunkOutcome(Some(chunk.(candidates := [c.(content := c.content.(parts := sc.parts))])), sc.buffer)
  }

  /** The chunks a stream yields and the thoughts still buffered at its end. */
  datatype Held = Held(chunks: seq<Response>, buffer: seq<string>)

  function Opt(o: Option<Response>): seq<Response> {
    if o.Some? then [o.value] else []
  }

  function TransformRun(chunks: seq<Response>, buffer: seq<string>, startTag: string, endTag: string): (r: Held)
    ensures |r.chunks| <= |chunks|
    decreases |chunks|
  {
    if chunks == [] then Held([], buffer)
    else
      var step := ChunkStep(chunks[0], buffer, startTag, endTag);
      var rest := TransformRun(chunks[1..], step.buffer, startTag, endTag);
      Held(Opt(step.out) + rest.chunks, rest.buffer)
  }

  lemma TransformRunStep(chunks: seq<Response>, i: nat, buffer: seq<string>, startTag: string, endTag: string)
    requires i < |chunks|
    ensures var step := ChunkStep(chunks[i], buffer, startTag, endTag);
      var rest := TransformRun(chunks[i + 1..], step.buffer, startTag, endTag);
      TransformRun(chunks[i..], buffer, startTag, endTag) == Held(Opt(step.out) + rest.chunks, rest.buffer)
  {
    assert chunks[i..][0] == chunks[i];
    assert chunks[i..][1..] == chunks[i + 1..];
  }

  /** The chunks already yielded in front of what the rest of the stream gives. */
  function AfterHeld(done: seq<Response>, h: Held): Held {
    Held(done + h.chunks, h.buffer)
  }

  lemma AfterChunkStep(done: seq<Response>, step: ChunkOutcome, rest: Held)
    ensures AfterHeld(done, Held(Opt(step.out) + rest.chunks, rest.buffer)) == AfterHeld(done + Opt(step.out), rest)
  {
    assert done + (Opt(step.out) + rest.chunks) == (done + Opt(step.out)) + rest.chunks;
  }

  /** The final chunk for thoughts that end the stream: one model candidate, index 0, with the wrapped part alone. */
  function FinalChunk(buffer: seq<string>, startTag: string, endTag: string): Response {
    CandidatesOnly([Candidate(Content("model", [WrappedPart(buffer, startTag, endTag)]), None, 0)])
  }

  /**
   * `_transform_wrap_thoughts` over the chunks the parser delivered; `completed` says whether the
   * parser finished, since an exception from it ends the generator before the final flush.
   */
  function WrapStream(chunks: seq<Response>, startTag: string, endTag: string, completed: bool): seq<Response> {
    var run := TransformRun(chunks, [], startTag, endTag);
    run.chunks + (if completed && run.buffer != [] then [FinalChunk(run.buffer, startTag, endTag)] else [])
  }

  method TransformWrapThoughts(chunks: seq<Response>, startTag: string, endTag: string, completed: bool) returns (out: seq<Response>)
    ensures out == WrapStream(chunks, startTag, endTag, completed)
  {
    out := [];
    var buffer: seq<string> := [];
    assert chunks[0..] == chunks;
    assert AfterHeld([], TransformRun(chunks, [], startTag, endTag)) == TransformRun(chunks, [], startTag, endTag);
    for i := 0 to |chunks|
      invariant TransformRun(chunks, [], startTag, endTag) == AfterHeld(out, TransformRun(chunks[i..], buffer, startTag, endTag))
    {
      TransformRunStep(chunks, i, buffer, startTag, endTag);
      var chunk := chunks[i];
      ghost var step := ChunkStep(chunk, buffer, startTag, endTag);
      AfterChunkStep(out, step, TransformRun(chunks[i + 1..], step.buffer, startTag, endTag));
      ghost var before := out;
      if chunk.candidates == [] {
        out := out + [chunk];
      } else {
        var c := chunk.candidates[0];
        var partsToYield, held := ScanParts(c.content.parts, buffer, startTag, endTag);
        buffer := held;
        if partsToYield != [] {
          out := out + [chunk.(candidates := [c.(content := c.content.(parts := partsToYield))])];
        }
      }
      assert out == before + Opt(step.out) && buffer == step.buffer;
    }
    assert chunks[|chunks|..] == [];
    assert out + [] == out;
    if completed && buffer != [] {
      out := out + [FinalChunk(buffer, startTag, endTag)];
    } else {
      assert out + [] == out;
    }
  }

  /** The parts of each chunk's first candidate, chunk after chunk: what the transform reads. */
  function FirstParts(chunks: seq<Response>): seq<Part> {
    if chunks == [] then []
    else (if chunks[0].candidates == [] then [] else chunks[0].candidates[0].content.parts) + FirstParts(chunks[1..])
  }

  lemma {:induction false} FirstPartsAppend(a: seq<Response>, b: seq<Response>)
    ensures FirstParts(a + b) == FirstParts(a) + FirstParts(b)
  {
    if a == [] {
      assert a + b == b;
    } else {
      assert (a + b)[0] == a[0];
      assert (a + b)[1..] == a[1..] + b;
      FirstPartsAppend(a[1..], b);
    }
  }

  lemma FirstPartsOne(chunk: Response)
    ensures FirstParts([chunk]) == if chunk.candidates == [] then [] else chunk.candidates[0].content.parts
  {
    assert [chunk][1..] == [];
  }

  /** Across the whole stream, the first candidates' non-thought parts come out unchanged and in order. */
  lemma {:induction false} TransformKeepsNonThoughts(chunks: seq<Response>, buffer: seq<string>, startTag: string, endTag: string)
    requires NonEmptyTexts(buffer)
    ensures var run := TransformRun(chunks, buffer, startTag, endTag);
      NonThoughts(FirstParts(run.chunks)) == NonThoughts(FirstParts(chunks)) && NonEmptyTexts(run.buffer)
    decreases |chunks|
  {
    if chunks != [] {
      var chunk := chunks[0];
      var step := ChunkStep(chunk, buffer, startTag, endTag);
      var rest := TransformRun(chunks[1..], step.buffer, startTag, endTag);
      if chunk.candidates != [] {
        ScanKeepsNonThoughts(chunk.candidates[0].content.parts, buffer, startTag, endTag);
      }
      TransformKeepsNonThoughts(chunks[1..], step.buffer, startTag, endTag);
      assert chunks == [chunk] + chunks[1..];
      FirstPartsAppend([chunk], chunks[1..]);
      FirstPartsAppend(Opt(step.out), rest.chunks);
      FirstPartsOne(chunk);
      if step.out.Some? {
        FirstPartsOne(step.out.value);
      }
      NonThoughtsAppend(FirstParts([chunk]), FirstParts(chunks[1..]));
      NonThoughtsAppend(FirstParts(Opt(step.out)), FirstParts(rest.chunks));
    }
  }

  lemma StreamKeepsNonThoughts(chunks: seq<Response>, startTag: string, endTag: string, completed: bool)
    ensures NonThoughts(FirstParts(WrapStream(chunks, startTag, endTag, completed))) == NonThoughts(FirstParts(chunks))
  {
    var run := TransformRun(chunks, [], startTag, endTag);
    TransformKeepsNonThoughts(chunks, [], startTag, endTag);
    var tail := if completed && run.buffer != [] then [FinalChunk(run.buffer, startTag, endTag)] else [];
    FirstPartsAppend(run.chunks, tail);
    if tail != [] {
      FirstPartsOne(tail[0]);
      WrappedIsThought(run.buffer, startTag, endTag);
      assert NonThoughts(FirstParts(tail)) == [];
    } else {
      assert FirstParts(tail) == [];
    }
    NonThoughtsAppend(FirstParts(run.chunks), FirstParts(tail));
  }

  /**
   * A chunk whose first candidate holds only thoughts yields nothing: its thoughts join the
   * buffer and wait for the next part that is not a thought, in this chunk or a later one.
   */
  lemma ThoughtOnlyChunkHeld(chunk: Response, later: seq<Response>, buffer: seq<string>, startTag: string, endTag: string)
    requires chunk.candidates != []
    requires var ps := chunk.candidates[0].content.parts; forall k :: 0 <= k < |ps| ==> IsThought(ps[k])
    ensures TransformRun([chunk] + later, buffer, startTag, endTag)
         == TransformRun(later, buffer + ThoughtTexts(chunk.candidates[0].content.parts), startTag, endTag)
  {
    ScanAllThoughts(chunk.candidates[0].content.parts, buffer, startTag, endTag);
    assert ([chunk] + later)[0] == chunk;
    assert ([chunk] + later)[1..] == later;
  }

  /** Every chunk either carries no candidates or exactly one. */
  predicate AtMostOneCandidate(out: seq<Response>) {
    forall k :: 0 <= k < |out| ==> out[k].candidates == [] || |out[k].candidates| == 1
  }

  /** Every chunk the transform yields either passed through without candidates or keeps its first candidate alone. */
  lemma {:induction false} TransformKeepsFirstCandidate(chunks: seq<Response>, buffer: seq<string>, startTag: string, endTag: string)
    ensures AtMostOneCandidate(TransformRun(chunks, buffer, startTag, endTag).chunks)
    decreases |chunks|
  {
    if chunks != [] {
      var step := ChunkStep(chunks[0], buffer, startTag, endTag);
      TransformKeepsFirstCandidate(chunks[1..], step.buffer, startTag, endTag);
      var rest := TransformRun(chunks[1..], step.buffer, startTag, endTag).chunks;
      assert AtMostOneCandidate(rest);
      assert AtMostOneCandidate(Opt(step.out));
      var out := Opt(step.out) + rest;
      assert out == TransformRun(chunks, buffer, startTag, endTag).chunks;
      forall k | 0 <= k < |out|
        ensures out[k].candidates == [] || |out[k].candidates| == 1
      {
        var n := |Opt(step.out)|;
        if k < n {
          assert out[k] == Opt(step.out)[k];
        } else {
          assert out[k] == rest[k - n];
        }
      }
    }
  }

  // ---------------------------------------------------------------------------------------------
  // Non-streaming responses

  datatype Candidates = Candidates(items: seq<Candidate>)

  /** One candidate with its parts coalesced, everything else kept. */
  function WrapCandidate(c: Candidate, tags: seq<string>): (r: Result<Candidate, Exception>)
    ensures r.Err? <==> Coalesce(c.content.parts, tags).Err?
    ensures r.Ok? ==> r.value == c.(content := c.content.(parts := Coalesce(c.content.parts, tags).value))
  {
    var parts :- Coalesce(c.content.parts, tags);
    Ok(c.(content := c.content.(parts := parts)))
  }

  function WrapCandidates(cs: seq<Candidate>, tags: seq<string>): (r: Result<seq<Candidate>, Exception>)
    ensures r.Ok? ==> |r.value| == |cs| && forall k :: 0 <= k < |cs| ==> WrapCandidate(cs[k], tags) == Ok(r.value[k])
  {
    if cs == [] then Ok([]) else Cons(WrapCandidate(cs[0], tags), WrapCandidates(cs[1..], tags))
  }

  lemma WrapCandidatesStep(cs: seq<Candidate>, i: nat, tags: seq<string>)
    requires i < |cs|
    ensures WrapCandidates(cs[i..], tags) == Cons(WrapCandidate(cs[i], tags), WrapCandidates(cs[i + 1..], tags))
  {
    assert cs[i..][0] == cs[i];
    assert cs[i..][1..] == cs[i + 1..];
  }

  /** `wrap_thoughts_in_gemini_response`: every candidate's parts coalesced, in order. */
  function WrapResponse(resp: Response, tags: seq<string>): Result<Response, Exception> {
    var cs :- WrapCandidates(resp.candidates, tags);
    Ok(resp.(candidates := cs))
  }

  method WrapThoughtsInGeminiResponse(resp: Response, tags: seq<string>) returns (r: Result<Response, Exception>)
    ensures r == WrapResponse(resp, tags)
  {
    var cs := resp.candidates;
    var done: seq<Candidate> := [];
    assert cs[0..] == cs;
    var spec := WrapCandidates(cs, tags);
    if spec.Ok? {
      assert [] + spec.value == spec.value;
    }
    for i := 0 to |cs|
      invariant WrapCandidates(cs, tags) == AfterDone(done, WrapCandidates(cs[i..], tags))
    {
      WrapCandidatesStep(cs, i, tags);
      var parts := CoalesceAndWrapThoughts(cs[i].content.parts, tags);
      var c := if parts.Ok? then Ok(cs[i].(content := cs[i].content.(parts := parts.value))) else Err(parts.error);
      assert c == WrapCandidate(cs[i], tags);
      AfterCons(done, c, WrapCandidates(cs[i + 1..], tags));
      if c.Err? {
        return Err(c.error);
      }
      done := done + [c.value];
    }
    assert cs[|cs|..] == [];
    assert done + [] == done;
    return Ok(resp.(candidates := done));
  }

  /** With well-formed tags the response keeps its candidates, each with its non-thought parts intact. */
  lemma WrapResponseKeepsNonThoughts(resp: Response, startTag: string, endTag: string, k: nat)
    requires k < |resp.candidates|
    ensures var r := WrapResponse(resp, [startTag, endTag]);
      r.Ok? && |r.value.candidates| == |resp.candidates|
      && NonThoughts(r.value.candidates[k].content.parts) == NonThoughts(resp.candidates[k].content.parts)
  {
    WrapAllOk(resp.candidates, startTag, endTag);
    var r := WrapCandidates(resp.candidates, [startTag, endTag]);
    assert WrapCandidate(resp.candidates[k], [startTag, endTag]) == Ok(r.value[k]);
    CoalesceProperties(resp.candidates[k].content.parts, startTag, endTag);
  }

  lemma {:induction false} WrapAllOk(cs: seq<Candidate>, startTag: string, endTag: string)
    ensures WrapCandidates(cs, [startTag, endTag]).Ok?
    decreases |cs|
  {
    if cs != [] {
      CoalesceProperties(cs[0].content.parts, startTag, endTag);
      WrapAllOk(cs[1..], startTag, endTag);
    }
  }

  // ---------------------------------------------------------------------------------------------
  // Parsing the upstream lines

  /** `json.loads` (None on a decode error) and pydantic's `GeminiResponse.model_validate` (None on a validation error). */
  datatype Decoders = Decoders(loads: string -> Option<Json>, validate: ResponseValidator)

  /** The payload of a line that starts with `data: ` (space included), stripped. */
  function LinePayload(line: string): Option<string> {
    if StartsWith(line, "data: ") then Some(Strip(line[6..])) else None
  }

  /**
   * One line of `_parse_google_sse`.  A decode or validation failure is raised as a
   * StreamParseError (its cause kept here); a membership test or an index on a value that does
   * not support it raises TypeError, which is not a parse error.
   */
  function ParseLine(line: string, d: Decoders): (r: Result<Option<Response>, Exception>)
    ensures LinePayload(line).None? || LinePayload(line) == Some("") ==> r == Ok(None)
    ensures LinePayload(line).Some? && LinePayload(line) != Some("") && d.loads(LinePayload(line).value).None? ==> r == Err(JsonDecodeError)
    ensures r.Err? ==> r.error in {JsonDecodeError, ValidationError, TypeError}
  {
    match LinePayload(line)
    case None => Ok(None)
    case Some(data) =>
      if data == [] then Ok(None)
      else
        match d.loads(data)
        case None => Err(JsonDecodeError)
        case Some(obj) =>
          var wrapped :- PyContains(obj, "response");
          if !wrapped then Ok(None)
          else
            var inner :- Subscript(obj, "response");
            match d.validate(inner)
            case None => Err(ValidationError)
            case Some(resp) => Ok(Some(resp))
  }

  function ParseLinesSpec(lines: seq<string>, d: Decoders): (r: CoreStreaming.Parsed)
    ensures |r.chunks| <= |lines|
    ensures r.failure.Some? ==> r.failure.value in {JsonDecodeError, ValidationError, TypeError}
  {
    if lines == [] then CoreStreaming.Parsed([], None) else CoreStreaming.Next(ParseLine(lines[0], d), ParseLinesSpec(lines[1..], d))
  }

  lemma ParseLinesStep(lines: seq<string>, i: nat, d: Decoders)
    requires i < |lines|
    ensures ParseLinesSpec(lines[i..], d) == CoreStreaming.Next(ParseLine(lines[i], d), ParseLinesSpec(lines[i + 1..], d))
  {
    assert lines[i..][0] == lines[i];
    assert lines[i..][1..] == lines[i + 1..];
  }

  /** `_parse_google_sse`: the line loop, giving what it yields and what it raises. */
  method ParseGoogleSse(lines: seq<string>, d: Decoders) returns (r: CoreStreaming.Parsed)
    ensures r == ParseLinesSpec(lines, d)
  {
    var chunks: seq<Response> := [];
    assert lines[0..] == lines;
    assert CoreStreaming.After([], ParseLinesSpec(lines, d)) == ParseLinesSpec(lines, d);
    for i := 0 to |lines|
      invariant ParseLinesSpec(lines, d) == CoreStreaming.After(chunks, ParseLinesSpec(lines[i..], d))
    {
      var line := ParseLine(lines[i], d);
      ParseLinesStep(lines, i, d);
      CoreStreaming.AfterNext(chunks, line, ParseLinesSpec(lines[i + 1..], d));
      if line.Err? {
        return CoreStreaming.Parsed(chunks, Some(line.error));
      }
      if line.value.Some? {
        chunks := chunks + [line.value.value];
      }
    }
    assert lines[|lines|..] == [];
    assert chunks + [] == chunks;
    return CoreStreaming.Parsed(chunks, None);
  }

  /** Unlike the current parser, which skips it, a line whose JSON does not decode stops the stream. */
  lemma MalformedLineRaises(line: string, later: seq<string>, d: Decoders)
    requires LinePayload(line).Some? && LinePayload(line) != Some("") && d.loads(LinePayload(line).value).None?
    ensures ParseLinesSpec([line] + later, d) == CoreStreaming.Parsed([], Some(JsonDecodeError))
  {
    assert ([line] + later)[0] == line;
  }

  /** Lines without the `data: ` prefix, or with an empty payload, yield nothing and raise nothing. */
  lemma {:induction false} IgnoredLinesYieldNothing(lines: seq<string>, d: Decoders)
    requires forall k :: 0 <= k < |lines| ==> LinePayload(lines[k]).None? || LinePayload(lines[k]) == Some("")
    ensures ParseLinesSpec(lines, d) == CoreStreaming.Parsed([], None)
  {
    if lines != [] {
      assert forall k :: 0 <= k < |lines[1..]| ==> lines[1..][k] == lines[k + 1];
      IgnoredLinesYieldNothing(lines[1..], d);
    }
  }

  /** An object without a `response` key is skipped, not raised. */
  lemma UnwrappedObjectSkipped(line: string, obj: Object, d: Decoders)
    requires LinePayload(line).Some? && LinePayload(line) != Some("") && d.loads(LinePayload(line).value) == Some(JObj(obj))
    requires !HasKey(obj, "response")
    ensures ParseLine(line, d) == Ok(None)
  {
  }

  // ---------------------------------------------------------------------------------------------
  // Formatting and the orchestrator

  /** `format_as_gemini_sse`: the chunk's JSON (the fields that were set) as one data frame. */
  function FormatAsGeminiSse(chunk: Response, dumpJson: Response -> string): (frame: string)
    ensures Formatters.IsDataFrame(frame) && Formatters.FramePayload(frame) == dumpJson(chunk)
  {
    Formatters.DataFrameRoundTrip(dumpJson(chunk));
    Formatters.DataFrame(dumpJson(chunk))
  }

  /** The frames the loop yielded and the exception that stopped it, if one did. */
  datatype Yielded = Yielded(frames: seq<string>, error: Option<Exception>)

  function NextFrame(frame: Result<string, Exception>, rest: Yielded): Yielded {
    if frame.Err? then Yielded([], Some(frame.error)) else Yielded([frame.value] + rest.frames, rest.error)
  }

  /** `yield formatter(chunk, **context)` for each chunk in turn, until the formatter raises. */
  function FormatAll(chunks: seq<Response>, format: Response -> Result<string, Exception>): (y: Yielded)
    ensures |y.frames| <= |chunks|
    ensures y.error.None? ==> |y.frames| == |chunks|
  {
    if chunks == [] then Yielded([], None) else NextFrame(format(chunks[0]), FormatAll(chunks[1..], format))
  }

  lemma FormatAllStep(chunks: seq<Response>, i: nat, format: Response -> Result<string, Exception>)
    requires i < |chunks|
    ensures FormatAll(chunks[i..], format) == NextFrame(format(chunks[i]), FormatAll(chunks[i + 1..], format))
  {
    assert chunks[i..][0] == chunks[i];
    assert chunks[i..][1..] == chunks[i + 1..];
  }

  function AfterYielded(done: seq<string>, y: Yielded): Yielded {
    Yielded(done + y.frames, y.error)
  }

  lemma AfterNextFrame(done: seq<string>, frame: Result<string, Exception>, rest: Yielded)
    ensures AfterYielded(done, NextFrame(frame, rest)) ==
      if frame.Err? then Yielded(done, Some(frame.error)) else AfterYielded(done + [frame.value], rest)
  {
    if frame.Err? {
      assert done + [] == done;
    } else {
      assert done + ([frame.value] + rest.frames) == (done + [frame.value]) + rest.frames;
    }
  }

  /** The loop of the orchestrator over the chunks of the pipeline. */
  method FormatChunks(chunks: seq<Response>, format: Response -> Result<string, Exception>) returns (y: Yielded)
    ensures y == FormatAll(chunks, format)
  {
    var frames: seq<string> := [];
    assert chunks[0..] == chunks;
    assert AfterYielded([], FormatAll(chunks, format)) == FormatAll(chunks, format);
    for i := 0 to |chunks|
      invariant FormatAll(chunks, format) == AfterYielded(frames, FormatAll(chunks[i..], format))
    {
      var frame := format(chunks[i]);
      FormatAllStep(chunks, i, format);
      AfterNextFrame(frames, frame, FormatAll(chunks[i + 1..], format));
      if frame.Err? {
        return Yielded(frames, Some(frame.error));
      }
      frames := frames + [frame.value];
    }
    assert chunks[|chunks|..] == [];
    assert frames + [] == frames;
    return Yielded(frames, None);
  }

  const ParseErrorPrefix: string := "Stream parsing error: Validation/JSON error: "

  /** A decode or validation failure of the parser is the one that becomes a StreamParseError. */
  predicate IsParseError(e: Exception) {
    e == JsonDecodeError || e == ValidationError
  }

  /** `data: {"error": {"message": ...}}` followed by a blank line. */
  function ErrorFrame(message: string, dumps: Json -> string): string {
    Formatters.DataFrame(dumps(JObj([Member("error", JObj([Member("message", JStr(message))]))])))
  }

  /** The error frame for an exception: the parse-error wording for a StreamParseError, the generic one otherwise. */
  function ErrorFrameFor(e: Exception, parseError: bool, dumps: Json -> string, describe: Exception -> string): string {
    ErrorFrame((if parseError then ParseErrorPrefix else CoreStreaming.ErrorPrefix) + describe(e), dumps)
  }

  const DoneFrame: string := "data: [DONE]\n\n"

  /** `formatter_context.get("is_openai", False)`, read as Python truthiness. */
  predicate IsOpenAI(context: Object) {
    Truthy(Get(context, "is_openai", JBool(false)))
  }

  /** `THOUGHT_WRAPPER_TAGS and len(THOUGHT_WRAPPER_TAGS) == 2`. */
  predicate WrapEnabled(tags: Option<seq<string>>) {
    tags.Some? && |tags.value| == 2
  }

  /** The inputs of the orchestrator: the upstream lines and what it calls. */
  datatype Pipeline = Pipeline(
    lines: seq<string>,
    upstream: Option<Exception>,
    d: Decoders,
    format: Response -> Result<string, Exception>,
    context: Object,
    dumps: Json -> string,
    describe: Exception -> string)

  /**
   * `process_stream_for_client`, with the thought tags read from a setting that exists.  The
   * generators are lazy, so a formatter exception on a chunk comes before any failure of the
   * lines after it; the parser's failure, else the upstream's (raised after the lines it
   * delivered), ends the stream otherwise, and skips the transform's final flush.
   */
  function ProcessStreamSpec(p: Pipeline, tags: Option<seq<string>>): (out: seq<string>)
    ensures IsOpenAI(p.context) ==> out != [] && out[|out| - 1] == DoneFrame
  {
    var parsed := ParseLinesSpec(p.lines, p.d);
    var failure := if parsed.failure.Some? then parsed.failure else p.upstream;
    var chunks := if WrapEnabled(tags) then WrapStream(parsed.chunks, tags.value[0], tags.value[1], failure.None?) else parsed.chunks;
    var y := FormatAll(chunks, p.format);
    y.frames
      + (if y.error.Some? then [ErrorFrameFor(y.error.value, false, p.dumps, p.describe)]
         else if failure.Some? then [ErrorFrameFor(failure.value, parsed.failure.Some? && IsParseError(failure.value), p.dumps, p.describe)]
         else [])
      + (if IsOpenAI(p.context) then [DoneFrame] else [])
  }

  method ProcessStreamForClient(p: Pipeline, tags: Option<seq<string>>) returns (out: seq<string>)
    ensures out == ProcessStreamSpec(p, tags)
  {
    var parsed := ParseGoogleSse(p.lines, p.d);
    var failure := if parsed.failure.Some? then parsed.failure else p.upstream;
    var chunks := parsed.chunks;
    if tags.Some? && |tags.value| == 2 {
      chunks := TransformWrapThoughts(chunks, tags.value[0], tags.value[1], failure.None?);
    }
    assert chunks == if WrapEnabled(tags) then WrapStream(parsed.chunks, tags.value[0], tags.value[1], failure.None?) else parsed.chunks;
    var y := FormatChunks(chunks, p.format);
    out := y.frames;
    if y.error.Some? {
      out := out + [ErrorFrameFor(y.error.value, false, p.dumps, p.describe)];
    } else if failure.Some? {
      out := out + [ErrorFrameFor(failure.value, parsed.failure.Some? && IsParseError(failure.value), p.dumps, p.describe)];
    }
    assert out == y.frames
      + (if y.error.Some? then [ErrorFrameFor(y.error.value, false, p.dumps, p.describe)]
         else if failure.Some? then [ErrorFrameFor(failure.value, parsed.failure.Some? && IsParseError(failure.value), p.dumps, p.describe)]
         else []);
    if IsOpenAI(p.context) {
      out := out + [DoneFrame];
    }
  }

  /** Without a failure, every parsed chunk (after the transform) gives one frame and no error frame follows. */
  lemma CleanStreamFramesEveryChunk(p: Pipeline, tags: Option<seq<string>>)
    requires ParseLinesSpec(p.lines, p.d).failure.None? && p.upstream.None?
    requires forall c :: p.format(c).Ok?
    ensures var parsed := ParseLinesSpec(p.lines, p.d);
      var chunks := if WrapEnabled(tags) then WrapStream(parsed.chunks, tags.value[0], tags.value[1], true) else parsed.chunks;
      ProcessStreamSpec(p, tags) == FormatAll(chunks, p.format).frames + (if IsOpenAI(p.context) then [DoneFrame] else [])
  {
    var parsed := ParseLinesSpec(p.lines, p.d);
    var chunks := if WrapEnabled(tags) then WrapStream(parsed.chunks, tags.value[0], tags.value[1], true) else parsed.chunks;
    FormatAllTotal(chunks, p.format);
  }

  lemma {:induction false} FormatAllTotal(chunks: seq<Response>, format: Response -> Result<string, Exception>)
    requires forall c :: format(c).Ok?
    ensures FormatAll(chunks, format).error.None?
    decreases |chunks|
  {
    if chunks != [] {
      FormatAllTotal(chunks[1..], format);
    }
  }

  /**
   * A parse error is reported once, with its own wording, after the frames of the chunks before
   * it and without the transform's final flush; `[DONE]` still closes an OpenAI stream.
   */
  lemma ParseErrorReportedOnce(p: Pipeline, tags: Option<seq<string>>)
    requires ParseLinesSpec(p.lines, p.d).failure.Some? && IsParseError(ParseLinesSpec(p.lines, p.d).failure.value)
    requires forall c :: p.format(c).Ok?
    ensures var parsed := ParseLinesSpec(p.lines, p.d);
      var chunks := if WrapEnabled(tags) then WrapStream(parsed.chunks, tags.value[0], tags.value[1], false) else parsed.chunks;
      ProcessStreamSpec(p, tags) == FormatAll(chunks, p.format).frames
        + [ErrorFrame(ParseErrorPrefix + p.describe(parsed.failure.value), p.dumps)]
        + (if IsOpenAI(p.context) then [DoneFrame] else [])
  {
    var parsed := ParseLinesSpec(p.lines, p.d);
    var chunks := if WrapEnabled(tags) then WrapStream(parsed.chunks, tags.value[0], tags.value[1], false) else parsed.chunks;
    FormatAllTotal(chunks, p.format);
  }

  /** The wrapping is skipped unless exactly two tags are configured. */
  lemma NoWrappingWithoutTwoTags(p: Pipeline, tags: Option<seq<string>>)
    requires !WrapEnabled(tags)
    ensures ProcessStreamSpec(p, tags) == ProcessStreamSpec(p, None)
  {
  }

  // ---------------------------------------------------------------------------------------------
  // The thought-tags setting

  /** The fields the first-generation settings class declares; reading any other attribute of it raises AttributeError. */
  const LegacySettingsFields: set<string> := {"CLIENT_ID", "CLIENT_SECRET", "PORT", "DOMAIN_NAME", "GEMINI_AUTH_PASSWORD",
    "PERSISTENT_STORAGE_PATH", "CREDENTIALS_JSON_LIST", "DEBUG", "DEBUG_REDACT_LOGS"}

  /** `settings.THOUGHT_WRAPPER_TAGS` on a settings object declaring `fields`, whose value would be `tags`. */
  function ReadTags(fields: set<string>, tags: Option<seq<string>>): (r: Result<Option<seq<string>>, Exception>)
    ensures r.Ok? <==> "THOUGHT_WRAPPER_TAGS" in fields
  {
    if "THOUGHT_WRAPPER_TAGS" in fields then Ok(tags) else Err(AttributeError)
  }

  /**
   * `process_stream_for_client` as written: the tags are read from the settings inside the
   * `try`, before the first line is consumed, so a missing setting becomes the generic error frame.
   */
  function ProcessStreamAsWritten(p: Pipeline, fields: set<string>, tags: Option<seq<string>>): seq<string> {
    match ReadTags(fields, tags)
    case Err(e) => [ErrorFrameFor(e, false, p.dumps, p.describe)] + (if IsOpenAI(p.context) then [DoneFrame] else [])
    case Ok(t) => ProcessStreamSpec(p, t)
  }

  /**
   * The settings class does not declare THOUGHT_WRAPPER_TAGS, so as written every stream, whatever
   * the upstream sends, is one generic error frame (and `[DONE]` for OpenAI clients).
   */
  lemma EveryLegacyStreamFails(p: Pipeline, tags: Option<seq<string>>)
    ensures ProcessStreamAsWritten(p, LegacySettingsFields, tags)
         == [ErrorFrame(CoreStreaming.ErrorPrefix + p.describe(AttributeError), p.dumps)] + (if IsOpenAI(p.context) then [DoneFrame] else [])
  {
    var name := "THOUGHT_WRAPPER_TAGS";
    assert name[0] == 'T';
    assert forall f | f in LegacySettingsFields :: f[0] != 'T';
    assert name !in LegacySettingsFields;
  }

  /** With a declared setting, the as-written orchestrator is the one specified above, upstream chunks included. */
  lemma DeclaredTagsReachTheStream(p: Pipeline, fields: set<string>, tags: Option<seq<string>>)
    requires "THOUGHT_WRAPPER_TAGS" in fields
    ensures ProcessStreamAsWritten(p, fields, tags) == ProcessStreamSpec(p, tags)
  {
  }

  // ---------------------------------------------------------------------------------------------
  // The OpenAI stream formatter

  /** What a first-generation pydantic GeminiResponse answers to: its one field and the model methods. */
  const ChunkAttributes: set<string> := {"candidates", "model_copy", "model_dump", "model_dump_json", "model_validate"}

  /**
   * `format_as_openai_sse` as written: after reading the id and model from the context, it hands
   * the pydantic chunk itself to the first-generation translator, whose first step is
   * `gemini_chunk.get(...)`; only an object answering `get` would reach the translation.
   */
  function FormatAsOpenAISseAsWritten(chunk: Response, context: map<string, string>, dump: Response -> Object,
                                      render: Json -> Result<string, Exception>, now: int): Result<string, Exception> {
    if "response_id" !in context || "model" !in context then Err(KeyError)
    else if "get" !in ChunkAttributes then Err(AttributeError)
    else FormatAsOpenAISse(chunk, context, dump, render, now)
  }

  /** As written, the OpenAI stream formatter never yields a frame. */
  lemma OpenAISseAlwaysRaises(chunk: Response, context: map<string, string>, dump: Response -> Object,
                              render: Json -> Result<string, Exception>, now: int)
    requires "response_id" in context && "model" in context
    ensures FormatAsOpenAISseAsWritten(chunk, context, dump, render, now) == Err(AttributeError)
  {
    assert forall a | a in ChunkAttributes :: a != "get" by {
      assert "candidates"[0] != 'g' && "model_copy"[0] != 'g';
    }
  }

  /**
   * `format_as_openai_sse` with the chunk dumped to a dict before translation (`dump`), the
   * translation validated and serialised by `render`.
   */
  function FormatAsOpenAISse(chunk: Response, context: map<string, string>, dump: Response -> Object,
                             render: Json -> Result<string, Exception>, now: int): (r: Result<string, Exception>)
    ensures "response_id" !in context || "model" !in context ==> r == Err(KeyError)
    ensures r.Ok? ==> Formatters.IsDataFrame(r.value)
  {
    if "response_id" !in context || "model" !in context then Err(KeyError)
    else
      var translated :- LegacyOpenAI.StreamChunkToOpenAISpec(dump(chunk), context["model"], context["response_id"], now);
      var text :- render(translated);
      Formatters.DataFrameRoundTrip(text);
      Ok(Formatters.DataFrame(text))
  }

  /** The frame carries the translation of the chunk, with the context's response id and model. */
  lemma OpenAISseCarriesContext(chunk: Response, context: map<string, string>, dump: Response -> Object,
                                render: Json -> Result<string, Exception>, now: int)
    requires "response_id" in context && "model" in context
    requires FormatAsOpenAISse(chunk, context, dump, render, now).Ok?
    ensures var translated := LegacyOpenAI.StreamChunkToOpenAISpec(dump(chunk), context["model"], context["response_id"], now);
      translated.Ok? && translated.value.JObj?
      && Lookup(translated.value.members, "id") == Some(JStr(context["response_id"]))
      && Lookup(translated.value.members, "model") == Some(JStr(context["model"]))
      && render(translated.value).Ok?
      && Formatters.FramePayload(FormatAsOpenAISse(chunk, context, dump, render, now).value) == render(translated.value).value
  {
    var translated := LegacyOpenAI.StreamChunkToOpenAISpec(dump(chunk), context["model"], context["response_id"], now);
    Formatters.DataFrameRoundTrip(render(translated.value).value);
  }
}
