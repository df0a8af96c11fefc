/**
 * The output sanitiser and the prompt clamp of the agent pipeline
 * (server/agents.ts `clampText` and `cleanJsonOutput`).
 *
 * `ClampText` bounds a prompt input, keeping its prefix and appending a
 * truncation marker. `CleanJsonOutput` narrows model output to the text a
 * JSON parser should see: it deletes code-fence markers, trims, and slices
 * from the first `{` to the last `}` with JavaScript `substring` semantics
 * (which swap the bounds when the last `}` precedes the first `{`).
 */
module Sanitizer {
  import opened Base

  const TruncationMarker: string := "\n\n[...truncated for model limits...]"

  /** The bound used for most prompt inputs. */
  const PromptLimit: int := 20000

  /** The bound used for the search-formulation prompt. */
  const FormulationLimit: int := 2000

  const Fence: string := "```"
  const JsonFence: string := "```json"

  /** How many characters of an over-long input survive: `Math.max(0, max - 500)`. */
  function KeptPrefix(max: int): nat {
    if max - 500 > 0 then max - 500 else 0
  }

  /** `clampText(s, max)`. */
  function ClampText(s: string, max: int): (r: string)
    ensures s == "" || |s| <= max ==> r == s
    ensures s != "" && |s| > max ==>
      && KeptPrefix(max) <= |s|
      && |r| == KeptPrefix(max) + |TruncationMarker|
      && r[..KeptPrefix(max)] == s[..KeptPrefix(max)]
      && EndsWith(r, TruncationMarker)
    ensures max >= KeptPrefix(max) + |TruncationMarker| ==> |r| <= max || r == s
    ensures max >= 536 ==> |r| <= max || (|s| <= max && r == s)
  {
    if s == "" then s
    else if |s| <= max then s
    else s[..KeptPrefix(max)] + TruncationMarker
  }

  lemma MarkerLength()
    ensures |TruncationMarker| == 36
  {
  }

  /** Both clamp bounds the pipeline uses leave room for the marker: the output never exceeds the bound. */
  lemma {:induction false} ClampWithinBound(s: string, max: int)
    requires max == PromptLimit || max == FormulationLimit
    ensures |ClampText(s, max)| <= max
    ensures |s| > max ==> EndsWith(ClampText(s, max), TruncationMarker) && StartsWith(ClampText(s, max), s[..max - 500])
  {
    MarkerLength();
    var r := ClampText(s, max);
    if |s| > max {
      assert r[..max - 500] == s[..max - 500];
    }
  }

  // ---------------------------------------------------------------------
  // Fences
  // ---------------------------------------------------------------------

  /** The text holds no three-backtick fence. */
  predicate NoFence(s: string) {
    !Contains(s, Fence)
  }

  /** A slice of a fence-free string is fence-free. */
  lemma {:induction false} NoFenceSlice(s: string, i: int, j: int)
    requires 0 <= i <= j <= |s|
    requires NoFence(s)
    ensures NoFence(s[i..j])
  {
    var t := s[i..j];
    forall k | 0 <= k <= |t| && OccursAt(t, Fence, k) ensures false {
      var f := t[k..k + |Fence|];
      forall m | 0 <= m < |f| ensures f[m] == s[i + k + m] {
        assert f[m] == t[k + m];
      }
      assert f == s[i + k..i + k + |Fence|];
      assert OccursAt(s, Fence, i + k);
    }
  }

  lemma {:induction false} NoFenceNoJsonFence(s: string)
    requires NoFence(s)
    ensures !Contains(s, JsonFence)
  {
    forall i | 0 <= i <= |s| && OccursAt(s, JsonFence, i) ensures false {
      assert s[i..i + 3] == s[i..i + 7][..3];
      assert OccursAt(s, Fence, i);
    }
  }

  /** What `RemoveAll(t, Fence)` starts with, `t` already started with. */
  lemma {:induction false} RemoveFenceHead(t: string)
    ensures |RemoveAll(t, Fence)| >= 1 && RemoveAll(t, Fence)[0] == '`' ==> |t| >= 1 && t[0] == '`'
    ensures |RemoveAll(t, Fence)| >= 2 && RemoveAll(t, Fence)[..2] == "``" ==> |t| >= 2 && t[..2] == "``"
    decreases |t|
  {
    if |t| < 3 {
    } else if t[..3] == Fence {
      assert t[0] == '`' && t[1] == '`';
    } else {
      var rest := RemoveAll(t[3..], Fence);
      RemoveFenceHead(t[1..]);
      assert RemoveAll(t, Fence) == [t[0]] + RemoveAll(t[1..], Fence);
    }
  }

  /**
   * Deleting every fence left to right leaves no fence behind: a new one
   * could only form across a deletion, and the leftmost scan rules that out.
   */
  lemma {:induction false} RemoveFencesLeavesNone(s: string)
    ensures NoFence(RemoveAll(s, Fence))
    decreases |s|
  {
    var r := RemoveAll(s, Fence);
    if |s| < 3 {
      forall i | 0 <= i <= |r| && OccursAt(r, Fence, i) ensures false {
      }
    } else if s[..3] == Fence {
      RemoveFencesLeavesNone(s[3..]);
    } else {
      var rest := RemoveAll(s[1..], Fence);
      RemoveFencesLeavesNone(s[1..]);
      assert r == [s[0]] + rest;
      forall i | 0 <= i <= |r| && OccursAt(r, Fence, i) ensures false {
        if i >= 1 {
          assert r[i..i + 3] == rest[i - 1..i + 2];
          assert OccursAt(rest, Fence, i - 1);
        } else {
          assert r[..3] == Fence;
          assert r[0] == '`' && r[1] == '`' && r[2] == '`';
          assert r[1] == rest[0] && r[2] == rest[1];
          assert rest[..2] == "``";
          RemoveFenceHead(s[1..]);
        }
      }
    }
  }

  /** The text `cleanJsonOutput` extracts from: fences deleted (`json`-tagged ones first), then trimmed. */
  function StripFences(text: string): (r: string)
    ensures NoFence(r)
    ensures r != [] ==> !IsJsSpace(r[0]) && !IsJsSpace(r[|r| - 1])
  {
    var once := RemoveAll(RemoveAll(text, JsonFence), Fence);
    RemoveFencesLeavesNone(RemoveAll(text, JsonFence));
    NoFenceWithin(once, Trim(once));
    Trim(once)
  }

  /** Whatever a fence-free text contains is fence-free. */
  lemma NoFenceWithin(s: string, r: string)
    requires NoFence(s) && Contains(s, r)
    ensures NoFence(r)
  {
    var i :| 0 <= i <= |s| && OccursAt(s, r, i);
    NoFenceSlice(s, i, i + |r|);
    assert s[i..i + |r|] == r;
  }

  /** A fence-free, already trimmed text passes through `StripFences` unchanged. */
  lemma {:induction false} StripFencesStable(y: string)
    requires NoFence(y)
    requires y == [] || (!IsJsSpace(y[0]) && !IsJsSpace(y[|y| - 1]))
    ensures StripFences(y) == y
  {
    NoFenceNoJsonFence(y);
    RemoveAllAbsent(y, JsonFence);
    RemoveAllAbsent(y, Fence);
    TrimStable(y);
  }

  // ---------------------------------------------------------------------
  // cleanJsonOutput
  // ---------------------------------------------------------------------

  /** `s.substring(start, end)`: both bounds clamped to the string, swapped when reversed. */
  function JsSubstring(s: string, start: int, end: int): (r: string)
    ensures |r| <= |s| && Contains(s, r)
    ensures 0 <= start <= end <= |s| ==> r == s[start..end]
    ensures 0 <= end < start <= |s| ==> r == s[end..start]
  {
    var a := if start < 0 then 0 else if start > |s| then |s| else start;
    var b := if end < 0 then 0 else if end > |s| then |s| else end;
    if a <= b then
      assert OccursAt(s, s[a..b], a);
      s[a..b]
    else
      assert OccursAt(s, s[b..a], b);
      s[b..a]
  }

  /** Some `{` comes before some `}`. */
  predicate OpensBeforeCloses(s: string) {
    exists i, j :: 0 <= i < j < |s| && s[i] == '{' && s[j] == '}'
  }

  /** Both braces occur, but every `}` comes before every `{`. */
  predicate BracesReversed(s: string) {
    '{' in s && '}' in s && !OpensBeforeCloses(s)
  }

  lemma {:induction false} BraceOrder(s: string)
    requires '{' in s && '}' in s
    ensures OpensBeforeCloses(s) <==> IndexOf(s, '{') < LastIndexOf(s, '}')
  {
    var f, l := IndexOf(s, '{'), LastIndexOf(s, '}');
    if OpensBeforeCloses(s) {
      var i, j :| 0 <= i < j < |s| && s[i] == '{' && s[j] == '}';
      assert f <= i && j <= l;
    }
  }

  /**
   * The last step of `cleanJsonOutput`: when both braces occur, the
   * `substring` from the first `{` up to and including the last `}`;
   * otherwise the text itself.
   */
  function BraceSlice(clean: string): (r: string)
    ensures Contains(clean, r)
  {
    var first := IndexOf(clean, '{');
    var last := LastIndexOf(clean, '}');
    if first != -1 && last != -1 then JsSubstring(clean, first, last + 1)
    else
      assert OccursAt(clean, clean, 0);
      clean
  }

  /** `cleanJsonOutput(text)`. The empty text maps to "{}"; no output ever holds a fence. */
  function CleanJsonOutput(text: string): (r: string)
    ensures text == "" ==> r == "{}"
    ensures NoFence(r)
  {
    if text == "" then
      NoFenceExample("{}");
      "{}"
    else
      var clean := StripFences(text);
      NoFenceWithin(clean, BraceSlice(clean));
      BraceSlice(clean)
  }

  /** Without one of the braces, the text comes back unchanged. */
  lemma BraceSliceWithoutBraces(clean: string)
    requires '{' !in clean || '}' !in clean
    ensures BraceSlice(clean) == clean
  {
  }

  /**
   * When a `{` precedes a `}`, the slice is exactly the window from the
   * first `{` to the last `}`: it opens and closes with a brace, and nothing
   * before it holds a `{` and nothing after it a `}`.
   */
  lemma {:induction false} BraceSliceWindow(clean: string)
    requires OpensBeforeCloses(clean)
    ensures var r := BraceSlice(clean);
      && |r| >= 2 && r[0] == '{' && r[|r| - 1] == '}'
      && exists i :: 0 <= i <= |clean| && OccursAt(clean, r, i) && '{' !in clean[..i] && '}' !in clean[i + |r|..]
  {
    var r := BraceSlice(clean);
    var first, last := IndexOf(clean, '{'), LastIndexOf(clean, '}');
    assert 0 <= first < last < |clean| by {
      var i, j :| 0 <= i < j < |clean| && clean[i] == '{' && clean[j] == '}';
      BraceOrder(clean);
    }
    assert r == clean[first..last + 1];
    assert OccursAt(clean, r, first);
    assert clean[first + |r|..] == clean[last + 1..];
  }

  /**
   * With the braces in reverse order, `substring` swaps its bounds: the
   * slice is the text strictly between the last `}` and the first `{`,
   * and holds neither brace.
   */
  lemma {:induction false} BraceSliceReversed(clean: string)
    requires BracesReversed(clean)
    ensures var r := BraceSlice(clean);
      && r == clean[LastIndexOf(clean, '}') + 1..IndexOf(clean, '{')]
      && '{' !in r && '}' !in r
  {
    var r := BraceSlice(clean);
    var first, last := IndexOf(clean, '{'), LastIndexOf(clean, '}');
    BraceOrder(clean);
    assert r == clean[last + 1..first];
    assert forall k :: 0 <= k < |r| ==> r[k] == clean[last + 1 + k];
  }

  /**
   * `cleanJsonOutput` restated on the fence-stripped text: without both
   * braces it is that text; with `{` before `}` it is the brace window; with
   * the braces reversed it is the brace-free text between them.
   */
  lemma {:induction false} CleanJsonOutputCases(text: string)
    requires text != ""
    ensures var clean, r := StripFences(text), CleanJsonOutput(text);
      && ('{' !in clean || '}' !in clean ==> r == clean)
      && (OpensBeforeCloses(clean) ==>
            && |r| >= 2 && r[0] == '{' && r[|r| - 1] == '}'
            && exists i :: 0 <= i <= |clean| && OccursAt(clean, r, i) && '{' !in clean[..i] && '}' !in clean[i + |r|..])
      && (BracesReversed(clean) ==> '{' !in r && '}' !in r)
  {
    var clean := StripFences(text);
    assert CleanJsonOutput(text) == BraceSlice(clean);
    if '{' !in clean || '}' !in clean {
      BraceSliceWithoutBraces(clean);
    } else if OpensBeforeCloses(clean) {
      BraceSliceWindow(clean);
    } else {
      BraceSliceReversed(clean);
    }
  }

  /**
   * `cleanJsonOutput` is idempotent except in two situations: its output is
   * empty (a second call maps "" to "{}"), or the braces came in reverse order
   * (the swapped slice may keep surrounding whitespace that a second call
   * trims).
   */
  lemma {:induction false} CleanIdempotent(text: string)
    requires CleanJsonOutput(text) != ""
    requires text != "" ==> !BracesReversed(StripFences(text))
    ensures CleanJsonOutput(CleanJsonOutput(text)) == CleanJsonOutput(text)
  {
    var y := CleanJsonOutput(text);
    if text == "" {
      NoFenceExample(y);
      BraceSliceOfWindow(y);
      CleanOfCleanText(y);
    } else {
      var clean := StripFences(text);
      assert y == BraceSlice(clean);
      BraceSliceIdempotent(clean);
    }
  }

  /** The non-empty case of `CleanIdempotent`, stated on the fence-stripped text. */
  lemma {:induction false} BraceSliceIdempotent(clean: string)
    requires NoFence(clean)
    requires clean != [] ==> !IsJsSpace(clean[0]) && !IsJsSpace(clean[|clean| - 1])
    requires BraceSlice(clean) != "" && !BracesReversed(clean)
    ensures CleanJsonOutput(BraceSlice(clean)) == BraceSlice(clean)
  {
    var y := BraceSlice(clean);
    NoFenceWithin(clean, y);
    if '{' !in clean || '}' !in clean {
      BraceSliceWithoutBraces(clean);
      assert y == clean;
    } else {
      BraceSliceWindow(clean);
      assert y[0] == '{' && y[|y| - 1] == '}';
    }
    FixedPointOfClean(y);
  }

  /** A fence-free text with non-space ends that is its own brace slice is left alone. */
  lemma {:induction false} FixedPointOfClean(y: string)
    requires y != "" && NoFence(y) && !IsJsSpace(y[0]) && !IsJsSpace(y[|y| - 1])
    requires ('{' !in y || '}' !in y) || (|y| >= 2 && y[0] == '{' && y[|y| - 1] == '}')
    ensures CleanJsonOutput(y) == y
  {
    BraceSliceFixed(y);
    CleanOfCleanText(y);
  }

  /** A text that lacks a brace, or opens with `{` and closes with `}`, is its own brace slice. */
  lemma {:induction false} BraceSliceFixed(y: string)
    requires ('{' !in y || '}' !in y) || (|y| >= 2 && y[0] == '{' && y[|y| - 1] == '}')
    ensures BraceSlice(y) == y
  {
    if '{' !in y || '}' !in y {
      BraceSliceWithoutBraces(y);
    } else {
      BraceSliceOfWindow(y);
    }
  }

  /** On fence-free, trimmed, non-empty text, `cleanJsonOutput` is just the brace slice. */
  lemma {:induction false} CleanOfCleanText(y: string)
    requires y != "" && NoFence(y) && !IsJsSpace(y[0]) && !IsJsSpace(y[|y| - 1])
    ensures CleanJsonOutput(y) == BraceSlice(y)
  {
    StripFencesStable(y);
  }

  /** A text that opens with `{` and closes with `}` is its own brace slice. */
  lemma {:induction false} BraceSliceOfWindow(y: string)
    requires |y| >= 2 && y[0] == '{' && y[|y| - 1] == '}'
    ensures BraceSlice(y) == y
  {
    assert IndexOf(y, '{') == 0;
    assert LastIndexOf(y, '}') == |y| - 1;
  }

  /** Sanitising the empty fence gives "", and sanitising that gives "{}". */
  lemma FenceOnlyIsNotIdempotent()
    ensures CleanJsonOutput(Fence) == ""
    ensures CleanJsonOutput(CleanJsonOutput(Fence)) == "{}"
  {
    assert RemoveAll(Fence, JsonFence) == Fence;
    assert RemoveAll(Fence, Fence) == RemoveAll("", Fence) == "";
  }

  /** Reversed braces: the swapped slice " x " is trimmed to "x" by a second call. */
  lemma ReversedBracesAreNotIdempotent()
    ensures CleanJsonOutput("} x {") == " x "
    ensures CleanJsonOutput(" x ") == "x"
  {
    ReversedSlice("} x {");
    SpacedLetter(" x ");
  }

  lemma {:induction false} SpacedLetter(z: string)
    requires z == " x "
    ensures CleanJsonOutput(z) == "x"
  {
    NoFenceExample(z);
    NoFenceNoJsonFence(z);
    RemoveAllAbsent(z, JsonFence);
    RemoveAllAbsent(z, Fence);
    SpacedLetterTrim(z);
    BraceSliceWithoutBraces("x");
  }

  lemma SpacedLetterTrim(z: string)
    requires z == " x "
    ensures Trim(z) == "x"
  {
    assert z == [' ', 'x', ' '];
    SpacedCharTrim('x');
  }

  /** One non-space character between two spaces trims to itself. */
  lemma {:induction false} SpacedCharTrim(c: char)
    requires !IsJsSpace(c)
    ensures Trim([' ', c, ' ']) == [c]
  {
    var z := [' ', c, ' '];
    var y := [c, ' '];
    assert TrimStart(z) == y by {
      assert z[1..] == y;
      TrimStartStable(y);
    }
    assert TrimEnd(y) == [c] by {
      assert y[..1] == [c];
      TrimEndStable([c]);
    }
    TrimOfParts(z);
  }

  lemma {:induction false} ReversedSlice(y: string)
    requires y == "} x {"
    ensures CleanJsonOutput(y) == " x "
  {
    NoFenceExample(y);
    CleanOfCleanText(y);
    ReversedSliceBounds(y);
  }

  lemma ReversedSliceBounds(y: string)
    requires y == "} x {"
    ensures IndexOf(y, '{') == 4 && LastIndexOf(y, '}') == 0
    ensures BraceSlice(y) == " x "
  {
    assert JsSubstring(y, 4, 1) == " x ";
  }

  /** A text without a backtick has no fence. */
  lemma NoFenceExample(s: string)
    requires '`' !in s
    ensures NoFence(s)
  {
    forall i | 0 <= i <= |s| && OccursAt(s, Fence, i) ensures false {
      FenceHasBacktick(s, i);
    }
  }

  lemma FenceHasBacktick(s: string, i: int)
    requires OccursAt(s, Fence, i)
    ensures '`' in s
  {
    assert s[i] == s[i..i + 3][0];
  }

  /** The fenced example: a `json`-tagged fence around an object yields the bare object. */
  lemma FencedObjectExample()
    ensures CleanJsonOutput("```json\n{\"a\":1}\n```") == "{\"a\":1}"
  {
    FencedObject("```json\n{\"a\":1}\n```");
  }

  lemma {:induction false} FencedObject(text: string)
    requires text == "```json\n{\"a\":1}\n```"
    ensures CleanJsonOutput(text) == "{\"a\":1}"
  {
    var t2 := "\n{\"a\":1}\n";
    var t1 := t2 + Fence;
    FencedObjectTagRemoved(text, t1);
    NoFenceExample(t2);
    RemoveAllSuffix(t2, Fence);
    FencedObjectTrim(t2);
    BraceSliceOfWindow("{\"a\":1}");
  }

  lemma FencedObjectTagRemoved(text: string, t1: string)
    requires text == "```json\n{\"a\":1}\n```" && t1 == "\n{\"a\":1}\n```"
    ensures RemoveAll(text, JsonFence) == t1
  {
    assert text[..7] == JsonFence && text[7..] == t1;
    NoJsonFenceWithoutJ(t1);
    RemoveAllAbsent(t1, JsonFence);
  }

  lemma FencedObjectTrim(t2: string)
    requires t2 == "\n{\"a\":1}\n"
    ensures Trim(t2) == "{\"a\":1}"
  {
    var w := "{\"a\":1}";
    assert t2 == ['\n'] + w + ['\n'];
    LinedTrim(w);
  }

  /** A body with non-space ends, on a line of its own, trims to the body. */
  lemma {:induction false} LinedTrim(w: string)
    requires w != [] && !IsJsSpace(w[0]) && !IsJsSpace(w[|w| - 1])
    ensures Trim(['\n'] + w + ['\n']) == w
  {
    var z := ['\n'] + w + ['\n'];
    var y := w + ['\n'];
    assert TrimStart(z) == y by {
      assert z[1..] == y;
      TrimStartStable(y);
    }
    assert TrimEnd(y) == w by {
      assert y[..|y| - 1] == w;
      TrimEndStable(w);
    }
    TrimOfParts(z);
  }

  /** Text without a `j` holds no `json`-tagged fence. */
  lemma NoJsonFenceWithoutJ(s: string)
    requires 'j' !in s
    ensures !Contains(s, JsonFence)
  {
    forall i | 0 <= i <= |s| && OccursAt(s, JsonFence, i) ensures false {
      JsonFenceHasJ(s, i);
    }
  }

  lemma JsonFenceHasJ(s: string, i: int)
    requires OccursAt(s, JsonFence, i)
    ensures 'j' in s
  {
    assert s[i + 3] == s[i..i + 7][3];
  }

  /** A fence-free text followed by the pattern loses exactly that trailing pattern. */
  lemma {:induction false} RemoveAllSuffix(t: string, p: string)
    requires p == Fence
    requires NoFence(t)
    requires t == [] || t[|t| - 1] != '`'
    ensures RemoveAll(t + p, p) == t
    decreases |t|
  {
    if t == [] {
      assert (t + p)[..3] == p;
      assert (t + p)[3..] == [];
    } else {
      if |t| >= 3 {
        assert !OccursAt(t, Fence, 0);
        assert (t + p)[..3] == t[..3];
      } else {
        assert (t + p)[..3][|t| - 1] == t[|t| - 1];
      }
      assert (t + p)[..3] != p;
      assert (t + p)[1..] == t[1..] + p;
      NoFenceSlice(t, 1, |t|);
      assert t[1..|t|] == t[1..];
      assert t[1..] == [] || t[1..][|t[1..]| - 1] == t[|t| - 1];
      RemoveAllSuffix(t[1..], p);
    }
  }

  /** Text without braces comes back unchanged: the caller then faces the parse failure. */
  lemma NoBracesExample()
    ensures CleanJsonOutput("no braces here") == "no braces here"
  {
    NoBraces("no braces here");
  }

  lemma {:induction false} NoBraces(s: string)
    requires s == "no braces here"
    ensures CleanJsonOutput(s) == s
  {
    assert NoFence(s) by {
      assert '`' !in s;
      NoFenceExample(s);
    }
    assert '{' !in s;
    assert s[0] == 'n' && s[|s| - 1] == 'e';
    FixedPointOfClean(s);
  }
}
