/** The context text that `updateSystemPrompt` (client/components/App.jsx)
    derives from the event log: the captions of the last two array entries,
    stripped of emphasis markup and joined by a blank line, inside a fixed
    instructional template. */
module Captions {
  import opened Events

  // The global replacement of the two-asterisk pattern by the empty string:
  // a left-to-right scan that drops each non-overlapping pair of asterisks.
  function RemoveDoubleStar(s: string): (r: string)
    ensures |r| <= |s|
    ensures s != [] && s[0] != '*' ==> r != [] && r[0] == s[0]
    ensures forall i :: 0 <= i < |r| - 1 ==> !(r[i] == '*' && r[i + 1] == '*')
    decreases |s|
  {
    if |s| >= 2 && s[0] == '*' && s[1] == '*' then RemoveDoubleStar(s[2..])
    else if s == [] then []
    else [s[0]] + RemoveDoubleStar(s[1..])
  }

  // The global replacement of the one-asterisk pattern: drops every asterisk.
  function RemoveStar(s: string): (r: string)
    ensures '*' !in r
    ensures |r| <= |s|
  {
    if s == [] then []
    else (if s[0] == '*' then [] else [s[0]]) + RemoveStar(s[1..])
  }

  /** The caption cleaning of App.jsx: the two replacements in source order. */
  function Clean(s: string): (r: string)
    ensures '*' !in r && |r| <= |s|
  {
    RemoveStar(RemoveDoubleStar(s))
  }

  /** Removing asterisks commutes with concatenation, so the cleaned text is
      the input with its asterisks taken out and everything else kept in order. */
  lemma {:induction false} RemoveStarAppend(a: string, b: string)
    ensures RemoveStar(a + b) == RemoveStar(a) + RemoveStar(b)
    decreases |a|
  {
    if a != [] {
      assert (a + b)[0] == a[0] && (a + b)[1..] == a[1..] + b;
      RemoveStarAppend(a[1..], b);
      var h := if a[0] == '*' then [] else [a[0]];
      calc {
        RemoveStar(a + b);
        h + RemoveStar(a[1..] + b);
        h + (RemoveStar(a[1..]) + RemoveStar(b));
        (h + RemoveStar(a[1..])) + RemoveStar(b);
      }
    } else {
      assert a + b == b;
    }
  }

  /** Every character other than an asterisk survives, as often as it occurs. */
  lemma {:induction false} RemoveStarKeepsOthers(s: string, c: char)
    requires c != '*'
    ensures multiset(RemoveStar(s))[c] == multiset(s)[c]
  {
    if s != [] {
      assert s == [s[0]] + s[1..];
      RemoveStarKeepsOthers(s[1..], c);
    }
  }

  /** A text without asterisks is left as it is. */
  lemma {:induction false} RemoveStarNoStar(s: string)
    requires '*' !in s
    ensures RemoveStar(s) == s
  {
    if s != [] {
      assert s == [s[0]] + s[1..];
      RemoveStarNoStar(s[1..]);
    }
  }

  /** The first replacement is subsumed by the second: cleaning is exactly
      the removal of all asterisks. */
  lemma {:induction false} CleanIsRemoveStar(s: string)
    ensures Clean(s) == RemoveStar(s)
    decreases |s|
  {
    if |s| >= 2 && s[0] == '*' && s[1] == '*' {
      CleanIsRemoveStar(s[2..]);
      assert s[1..][1..] == s[2..];
    } else if s != [] {
      CleanIsRemoveStar(s[1..]);
      RemoveStarAppend([s[0]], RemoveDoubleStar(s[1..]));
    }
  }

  /** Cleaning leaves no asterisk, keeps every other character, and changes
      nothing in a caption that had no markup. */
  lemma CleanSpec(s: string)
    ensures '*' !in Clean(s)
    ensures forall c :: c != '*' ==> multiset(Clean(s))[c] == multiset(s)[c]
    ensures '*' !in s ==> Clean(s) == s
  {
    CleanIsRemoveStar(s);
    forall c | c != '*'
      ensures multiset(Clean(s))[c] == multiset(s)[c]
    {
      RemoveStarKeepsOthers(s, c);
    }
    if '*' !in s {
      RemoveStarNoStar(s);
    }
  }

  /** `log.caption || ''` */
  function CaptionText(e: Event): (r: string)
    ensures Present(e.caption) ==> r == e.caption.value
    ensures !Present(e.caption) ==> r == ""
  {
    if e.caption.Some? then e.caption.value else ""
  }

  /** `Array.prototype.join(sep)` on strings. */
  function Join(parts: seq<string>, sep: string): (r: string)
    ensures |parts| == 0 ==> r == ""
    ensures |parts| >= 1 ==> |r| >= |parts[0]| && r[..|parts[0]|] == parts[0]
    ensures |parts| >= 2 ==> |r| >= |parts[0]| + |sep| && r[|parts[0]|..|parts[0]| + |sep|] == sep
    ensures |parts| == 2 ==> r == parts[0] + sep + parts[1]
  {
    if |parts| == 0 then ""
    else if |parts| == 1 then parts[0]
    else parts[0] + sep + Join(parts[1..], sep)
  }

  /** `entries.map(log => clean(log.caption || ''))` */
  function CleanedCaptions(entries: seq<Event>): (r: seq<string>)
    ensures |r| == |entries|
    ensures forall i :: 0 <= i < |entries| ==> r[i] == Clean(CaptionText(entries[i]))
  {
    seq(|entries|, i requires 0 <= i < |entries| => Clean(CaptionText(entries[i])))
  }

  const Separator: string := "\n\n"

  /** The context of `updateSystemPrompt`: the cleaned captions of the last two
      array elements (`slice(-2)`), in array order, separated by a blank line. */
  function Context(log: seq<Event>): (r: string)
    requires |log| >= 2
    ensures r == Clean(CaptionText(log[|log| - 2])) + Separator + Clean(CaptionText(log[|log| - 1]))
    ensures '*' !in r
  {
    var parts := CleanedCaptions(log[|log| - 2..]);
    assert parts[1..] == [parts[1]];
    assert Join(parts[1..], Separator) == parts[1];
    CleanSpec(CaptionText(log[|log| - 2]));
    CleanSpec(CaptionText(log[|log| - 1]));
    Join(parts, Separator)
  }

  /** The log is newest first, so `slice(-2)` picks the two oldest entries: once
      two entries are in the log, a newly prepended event does not change the
      context at all. */
  lemma ContextIgnoresNewest(e: Event, log: seq<Event>)
    requires |log| >= 2
    ensures Context([e] + log) == Context(log)
  {
    var l := [e] + log;
    assert l[|l| - 2] == log[|log| - 2];
    assert l[|l| - 1] == log[|log| - 1];
  }

  /** With exactly one entry before it, the new event's caption comes first and
      the older one second. */
  lemma ContextOfTwo(newer: Event, older: Event)
    ensures Context([newer, older]) == Clean(CaptionText(newer)) + Separator + Clean(CaptionText(older))
  {
  }

  /** The template line before the context, with the indentation the template
      literal carries. */
  const PromptHead: string :=
    "You are a helpful AI assistant that provides conversational descriptions of what you see in images. "
    + "Based on the latest image logs, you are currently seeing:\n\n            "

  /** The template lines after the context. */
  const PromptTail: string :=
    "\n\n            Your role is to:\n"
    + "            - Describe what you see in a natural, conversational way\n"
    + "            - Update your understanding of the scene based on new image logs\n"
    + "            - Engage in dialogue about the scene and its context\n"
    + "            - Be observant of changes in the environment or person's state\n\n"
    + "            Please maintain a friendly and engaging tone while describing the scene."

  /** The template of App.jsx with the context in its one placeholder. */
  function PromptText(context: string): (r: string)
    ensures |r| == |PromptHead| + |context| + |PromptTail|
    ensures r[..|PromptHead|] == PromptHead
    ensures r[|PromptHead|..|PromptHead| + |context|] == context
    ensures r[|PromptHead| + |context|..] == PromptTail
  {
    PromptHead + context + PromptTail
  }

  /** The system prompt message `updateSystemPrompt` would dispatch for a log,
      or None when the log has fewer than two entries. */
  function SystemPromptFor(log: seq<Event>): (r: Option<Event>)
    ensures r.None? <==> |log| < 2
    ensures r.Some? ==> r.value.kind == ConversationItemCreate
    ensures r.Some? ==> !Present(r.value.eventId) && !Present(r.value.timestamp)
    ensures r.Some? ==> r.value.item.Some? && r.value.item.value.role == SystemRole
    ensures r.Some? ==> |r.value.item.value.content| == 1
    ensures r.Some? ==> r.value.item.value.content[0].text == PromptText(Context(log))
  {
    if |log| < 2 then None
    else Some(ConversationItem(SystemRole, PromptText(Context(log))))
  }

  // The sample strings below come in as parameters pinned by `requires`
  // rather than as literals in the body, which keeps the proofs fast.
  /** Markup stripped from a sample caption in bold. */
  lemma CleanBoldExample(caption: string, star: string, cat: string)
    requires star == "*" && cat == "A cat"
    requires caption == star + star + cat + star + star
    ensures Clean(caption) == cat
  {
    assert RemoveStar(star) == [];
    RemoveStarNoStar(cat);
    calc {
      RemoveStar(caption);
      { RemoveStarAppend(star + star + cat + star, star); }
      RemoveStar(star + star + cat + star);
      { RemoveStarAppend(star + star + cat, star); }
      RemoveStar(star + star + cat);
      { RemoveStarAppend(star + star, cat); }
      RemoveStar(star + star) + cat;
      { RemoveStarAppend(star, star); }
      cat;
    }
    CleanIsRemoveStar(caption);
  }

  /** Markup stripped from a sample caption in italics. */
  lemma CleanItalicExample(caption: string, star: string, pre: string, rug: string)
    requires star == "*" && pre == "A dog on a " && rug == "rug"
    requires caption == pre + star + rug + star
    ensures Clean(caption) == pre + rug
  {
    assert RemoveStar(star) == [];
    RemoveStarNoStar(pre);
    RemoveStarNoStar(rug);
    calc {
      RemoveStar(caption);
      { RemoveStarAppend(pre + star + rug, star); }
      RemoveStar(pre + star + rug);
      { RemoveStarAppend(pre + star, rug); }
      RemoveStar(pre + star) + rug;
      { RemoveStarAppend(pre, star); }
      pre + rug;
    }
    CleanIsRemoveStar(caption);
  }

  /** The two sample captions, newer first, as the context of a prompt. */
  lemma ExampleContext(newer: string, older: string)
    requires newer == "A dog on a *rug*" && older == "**A cat**"
    ensures Clean(newer) + Separator + Clean(older) == "A dog on a rug\n\nA cat"
  {
    var star, pre, rug, cat := "*", "A dog on a ", "rug", "A cat";
    SampleCaptionParts(newer, older, star, pre, rug, cat);
    CleanItalicExample(newer, star, pre, rug);
    CleanBoldExample(older, star, cat);
    SampleContextText(pre + rug, cat);
  }

  lemma SampleCaptionParts(newer: string, older: string, star: string, pre: string, rug: string, cat: string)
    requires newer == "A dog on a *rug*" && older == "**A cat**"
    requires star == "*" && pre == "A dog on a " && rug == "rug" && cat == "A cat"
    ensures newer == pre + star + rug + star && older == star + star + cat + star + star
  {
  }

  lemma SampleContextText(a: string, b: string)
    requires a == "A dog on a " + "rug" && b == "A cat"
    ensures a + Separator + b == "A dog on a rug\n\nA cat"
  {
  }
}
