/**
  `hld_prompt`: the prompt asking for a high-level design of the given
  requirements.  The template is one text with the requirements quoted in its
  first line and a bulleted list of the sections the design must cover; every
  newline of the filled-in template, including any inside the requirements,
  is then replaced by '.'.
 */
module Hld {
  import opened Strings

  // The longer texts below are written as concatenations of short pieces, which
  // keeps the verifier's reasoning about their characters small.

  /** The opening sentence the prompt starts with. */
  const Opening: string := "You are a serverless Python" + " expert developing on AWS"

  /** The template's text before the requirements (with its double space before "for"). */
  const Head: string := Opening + ". Write comprehensive HLD " + " for the requirements '"

  /** The template's text between the requirements and the list of sections. */
  const Intro: string := "'\nThe design should include:\n"

  /** The sections the design must cover, in the template's order. */
  const Sections: seq<string> := [
    "A clear description" + " of the architecture",
    "Cost analysis",
    "Security considerations",
    "Scalability considerations",
    "Performance considerations",
    "Error handling and logging",
    "Monitoring and observability",
    "Deployment strategy",
    "Testing strategy"
  ]

  /** One `- item` line per item, each ended by a newline. */
  function Bullets(items: seq<string>): string {
    if items == [] then "" else "- " + items[0] + "\n" + Bullets(items[1..])
  }

  /** The template with the requirements filled in, before newlines are replaced. */
  function Template(requirements: string): string {
    Head + requirements + Intro + Bullets(Sections)
  }

  /** Where the `i`-th item starts inside `Bullets(items)`. */
  function BulletStart(items: seq<string>, i: nat): nat
    requires i < |items|
  {
    if i == 0 then 2 else 3 + |items[0]| + BulletStart(items[1..], i - 1)
  }

  /** `hld_prompt(requirements)`. */
  function HldPrompt(requirements: string): (r: string)
    ensures |r| == |Template(requirements)|
    ensures '\n' !in r
    ensures StartsWith(r, Opening)
    ensures forall j :: 0 <= j < |requirements| ==>
              r[|Head| + j] == if requirements[j] == '\n' then '.' else requirements[j]
    ensures r[|r| - 1] == '.'
  {
    HeadParts();
    TailParts();
    assert Template(requirements) == Head + requirements + (Intro + Bullets(Sections));
    ReplaceShape(Head, requirements, Intro + Bullets(Sections));
    ReplaceChar(Template(requirements), '\n', '.')
  }

  /** The head has no newline and starts with the opening. */
  lemma HeadParts()
    ensures '\n' !in Head && Head[..|Opening|] == Opening
  {
  }

  /** The template after the requirements ends with a newline. */
  lemma TailParts()
    ensures var tail := Intro + Bullets(Sections);
            |tail| > 0 && tail[|tail| - 1] == '\n'
  {
    BulletsEndWithNewline(Sections);
  }

  /** Replacing newlines in `head + body + tail`, for a newline-free head and a tail ending in a newline. */
  lemma ReplaceShape(head: string, body: string, tail: string)
    requires '\n' !in head
    requires |tail| > 0 && tail[|tail| - 1] == '\n'
    ensures var r := ReplaceChar(head + body + tail, '\n', '.');
            && '\n' !in r
            && r[..|head|] == head
            && (forall j :: 0 <= j < |body| ==> r[|head| + j] == if body[j] == '\n' then '.' else body[j])
            && r[|r| - 1] == '.'
  {
    var s := head + body + tail;
    var r := ReplaceChar(s, '\n', '.');
    forall i | 0 <= i < |head|
      ensures r[i] == head[i]
    {
      assert s[i] == head[i] && head[i] in head;
    }
    forall j | 0 <= j < |body|
      ensures r[|head| + j] == if body[j] == '\n' then '.' else body[j]
    {
      assert s[|head| + j] == body[j];
    }
    assert s[|s| - 1] == tail[|tail| - 1];
  }

  /** The last character of a non-empty bullet list is its final newline. */
  lemma {:induction false} BulletsEndWithNewline(items: seq<string>)
    requires items != []
    ensures |Bullets(items)| > 0 && Bullets(items)[|Bullets(items)| - 1] == '\n'
    decreases |items|
  {
    if items[1..] != [] {
      BulletsEndWithNewline(items[1..]);
    }
  }

  /** Each item occurs in the bullet list where `BulletStart` says. */
  lemma {:induction false} BulletOccurs(items: seq<string>, i: nat)
    requires i < |items|
    ensures OccursAt(Bullets(items), items[i], BulletStart(items, i))
    decreases i
  {
    var first := "- " + items[0] + "\n";
    assert Bullets(items) == first + Bullets(items[1..]);
    if i == 0 {
      assert Bullets(items)[2..2 + |items[0]|] == items[0];
    } else {
      BulletOccurs(items[1..], i - 1);
      OccursAfter(first, Bullets(items[1..]), items[i], BulletStart(items[1..], i - 1));
    }
  }

  /** An occurrence in `b` is an occurrence in `a + b`, shifted by `|a|`. */
  lemma OccursAfter(a: string, b: string, t: string, k: nat)
    requires OccursAt(b, t, k)
    ensures OccursAt(a + b, t, |a| + k)
  {
    assert (a + b)[|a| + k..|a| + k + |t|] == b[k..k + |t|];
  }

  /** Replacing newlines keeps every occurrence of a newline-free text. */
  lemma ReplaceKeepsOccurrence(s: string, t: string, k: nat)
    requires OccursAt(s, t, k) && '\n' !in t
    ensures OccursAt(ReplaceChar(s, '\n', '.'), t, k)
  {
    var r := ReplaceChar(s, '\n', '.');
    forall j | 0 <= j < |t|
      ensures r[k + j] == t[j]
    {
      assert s[k + j] == t[j];
    }
    assert r[k..k + |t|] == t;
  }

  /** A newline-free item of a bullet list survives the replacement, whatever precedes the list. */
  lemma ItemSurvivesReplacement(prefix: string, items: seq<string>, i: nat)
    requires i < |items| && '\n' !in items[i]
    ensures Contains(ReplaceChar(prefix + Bullets(items), '\n', '.'), items[i])
  {
    BulletOccurs(items, i);
    OccursAfter(prefix, Bullets(items), items[i], BulletStart(items, i));
    ReplaceKeepsOccurrence(prefix + Bullets(items), items[i], |prefix| + BulletStart(items, i));
  }

  /** Every section of the template is named in the prompt, whatever the requirements. */
  lemma HldPromptSections(requirements: string, i: nat)
    requires i < |Sections|
    ensures Contains(HldPrompt(requirements), Sections[i])
  {
    SectionsOneLine(i);
    ItemSurvivesReplacement(Head + requirements + Intro, Sections, i);
  }

  /** No section name has a newline. */
  lemma SectionsOneLine(i: nat)
    requires i < |Sections|
    ensures '\n' !in Sections[i]
  {
    // The sections are checked in small groups to keep each proof cheap.
    if i == 0 {
      assert '\n' !in "A clear description" && '\n' !in " of the architecture";
    } else if i < 5 {
      assert '\n' !in Sections[i];
    } else {
      assert '\n' !in Sections[i];
    }
  }

  /** Requirements without a newline appear in the prompt verbatim, right after the head. */
  lemma HldPromptQuotesRequirements(requirements: string)
    requires '\n' !in requirements
    ensures OccursAt(HldPrompt(requirements), requirements, |Head|)
    ensures Contains(HldPrompt(requirements), requirements)
  {
    var r := HldPrompt(requirements);
    assert r[|Head|..|Head| + |requirements|] == requirements;
    assert OccursAt(r, requirements, |Head|);
  }
}
