/** The pure list logic of the creation form's tag editor
    (components/knowledge-base/create-data-modal.tsx): JavaScript's
    `String.prototype.trim`, `addTag` and `removeTag`, and the fact that the
    tag list they build never holds a duplicate or a blank tag. */
module TagList {

  /** The characters `trim` strips: ECMAScript WhiteSpace (tab, vertical tab,
      form feed, space, no-break space, byte-order mark and every other
      space separator) and LineTerminator (LF, CR, U+2028, U+2029). */
  predicate IsWhitespace(c: char) {
    || c == '\t' || c == '\n' || c == '\U{000B}' || c == '\U{000C}' || c == '\r'
    || c == ' ' || c == '\U{00A0}' || c == '\U{1680}'
    || ('\U{2000}' <= c <= '\U{200A}')
    || c == '\U{2028}' || c == '\U{2029}' || c == '\U{202F}' || c == '\U{205F}'
    || c == '\U{3000}' || c == '\U{FEFF}'
  }

  predicate AllWhitespace(s: string) {
    forall i :: 0 <= i < |s| ==> IsWhitespace(s[i])
  }

  /** `s` with its leading whitespace removed. */
  function TrimStart(s: string): (r: string)
    ensures |r| <= |s| && r == s[|s| - |r|..]
    ensures AllWhitespace(s[..|s| - |r|])
    ensures r == [] || !IsWhitespace(r[0])
  {
    if s != [] && IsWhitespace(s[0]) then TrimStart(s[1..]) else s
  }

  /** `s` with its trailing whitespace removed. */
  function TrimEnd(s: string): (r: string)
    ensures |r| <= |s| && r == s[..|r|]
    ensures AllWhitespace(s[|r|..])
    ensures r == [] || !IsWhitespace(r[|r| - 1])
  {
    if s != [] && IsWhitespace(s[|s| - 1]) then TrimEnd(s[..|s| - 1]) else s
  }

  /** `s.trim()`: empty exactly when `s` is blank, and otherwise starting
      and ending with a character that is not whitespace. */
  function Trim(s: string): (r: string)
    ensures r == [] <==> AllWhitespace(s)
    ensures r == [] || (!IsWhitespace(r[0]) && !IsWhitespace(r[|r| - 1]))
  {
    var front := TrimStart(s);
    var r := TrimEnd(front);
    assert r != [] ==> r[0] == front[0];
    assert r == [] ==> AllWhitespace(s) by {
      if r == [] {
        var k := |s| - |front|;
        forall i | 0 <= i < |s| ensures IsWhitespace(s[i]) {
          if i < k { assert s[..k][i] == s[i]; } else { assert front[i - k] == s[i]; }
        }
      }
    }
    r
  }

  /** What `trim` strips is whitespace at the two ends: the result is the
      infix `s[k..k + |Trim(s)|]` with only whitespace before and after it. */
  lemma TrimIsInfix(s: string) returns (k: nat)
    ensures k + |Trim(s)| <= |s| && Trim(s) == s[k..k + |Trim(s)|]
    ensures AllWhitespace(s[..k]) && AllWhitespace(s[k + |Trim(s)|..])
  {
    var front := TrimStart(s);
    var r := TrimEnd(front);
    k := |s| - |front|;
    assert s[k + |r|..] == front[|r|..];
  }

  /** Trimming is idempotent. */
  lemma TrimIdempotent(s: string)
    ensures Trim(Trim(s)) == Trim(s)
  {
  }

  // ---------------------------------------------------------------------
  // The tag list

  predicate NoDuplicates(tags: seq<string>) {
    forall i, j :: 0 <= i < j < |tags| ==> tags[i] != tags[j]
  }

  /** A tag as `addTag` produces it: non-empty and already trimmed, hence
      not blank. */
  predicate CleanTag(t: string) {
    t != "" && Trim(t) == t
  }

  predicate WellFormedTags(tags: seq<string>) {
    NoDuplicates(tags) && forall i :: 0 <= i < |tags| ==> CleanTag(tags[i])
  }

  /** `addTag`: appends the trimmed input and clears the input when the
      trimmed input is non-empty and not yet a tag; otherwise changes
      neither the tags nor the input. Returns the new (tags, input). */
  function AddTag(tags: seq<string>, input: string): (r: (seq<string>, string))
    ensures r.0 == tags || r.0 == tags + [Trim(input)]
    ensures r.0 != tags <==> !AllWhitespace(input) && Trim(input) !in tags
    ensures r.1 == if r.0 == tags then input else ""
  {
    var t := Trim(input);
    if t != "" && t !in tags then (tags + [t], "") else (tags, input)
  }

  /** `removeTag`: every occurrence of `t` is removed, the other tags keep
      their order (see RemoveTagConcat) and their multiplicities. */
  function RemoveTag(tags: seq<string>, t: string): (r: seq<string>)
    ensures t !in r
    ensures forall x :: x in r <==> x in tags && x != t
    ensures multiset(r) == multiset(tags)[t := 0]
    ensures |r| == |tags| - multiset(tags)[t]
  {
    if tags == [] then []
    else
      assert tags == [tags[0]] + tags[1..];
      if tags[0] == t then RemoveTag(tags[1..], t)
      else [tags[0]] + RemoveTag(tags[1..], t)
  }

  /** The filter distributes over concatenation: relative order is kept. */
  lemma {:induction false} RemoveTagConcat(a: seq<string>, b: seq<string>, t: string)
    ensures RemoveTag(a + b, t) == RemoveTag(a, t) + RemoveTag(b, t)
  {
    if a == [] {
      assert a + b == b;
    } else {
      assert (a + b)[0] == a[0];
      assert (a + b)[1..] == a[1..] + b;
      RemoveTagConcat(a[1..], b, t);
    }
  }

  /** Removing a tag that is not there changes nothing. */
  lemma {:induction false} RemoveTagAbsent(tags: seq<string>, t: string)
    requires t !in tags
    ensures RemoveTag(tags, t) == tags
  {
    if tags != [] {
      RemoveTagAbsent(tags[1..], t);
      assert tags == [tags[0]] + tags[1..];
    }
  }

  /** `addTag` keeps the tag list well formed. */
  lemma AddTagKeepsWellFormed(tags: seq<string>, input: string)
    requires WellFormedTags(tags)
    ensures WellFormedTags(AddTag(tags, input).0)
  {
  }

  /** `removeTag` keeps the tag list well formed. */
  lemma {:induction false} RemoveTagKeepsWellFormed(tags: seq<string>, t: string)
    requires WellFormedTags(tags)
    ensures WellFormedTags(RemoveTag(tags, t))
  {
    if tags != [] {
      var tail := tags[1..];
      TailWellFormed(tags);
      RemoveTagKeepsWellFormed(tail, t);
      if tags[0] != t {
        ConsWellFormed(tags[0], RemoveTag(tail, t));
      }
    }
  }

  lemma TailWellFormed(tags: seq<string>)
    requires tags != [] && WellFormedTags(tags)
    ensures WellFormedTags(tags[1..]) && tags[0] !in tags[1..]
  {
  }

  lemma ConsWellFormed(x: string, tags: seq<string>)
    requires CleanTag(x) && x !in tags && WellFormedTags(tags)
    ensures WellFormedTags([x] + tags)
  {
  }

  /** Removing the tag just added gives the tag list back. */
  lemma AddThenRemove(tags: seq<string>, input: string)
    requires WellFormedTags(tags)
    requires !AllWhitespace(input) && Trim(input) !in tags
    ensures RemoveTag(AddTag(tags, input).0, Trim(input)) == tags
  {
    var t := Trim(input);
    RemoveTagConcat(tags, [t], t);
    RemoveTagAbsent(tags, t);
  }

  // ---------------------------------------------------------------------
  // Any sequence of edits from the empty list

  /** What the user can do to the tag editor: type into the tag input, press
      Enter or the plus button, or click a tag's badge. */
  datatype TagAction = EditInput(text: string) | Add | Remove(tag: string)

  function Step(state: (seq<string>, string), a: TagAction): (seq<string>, string) {
    match a
    case EditInput(text) => (state.0, text)
    case Add => AddTag(state.0, state.1)
    case Remove(tag) => (RemoveTag(state.0, tag), state.1)
  }

  function Replay(state: (seq<string>, string), actions: seq<TagAction>): (seq<string>, string)
    decreases |actions|
  {
    if actions == [] then state else Replay(Step(state, actions[0]), actions[1..])
  }

  lemma {:induction false} ReplayKeepsWellFormed(state: (seq<string>, string), actions: seq<TagAction>)
    requires WellFormedTags(state.0)
    ensures WellFormedTags(Replay(state, actions).0)
    decreases |actions|
  {
    if actions != [] {
      match actions[0] {
        case EditInput(_) =>
        case Add => AddTagKeepsWellFormed(state.0, state.1);
        case Remove(tag) => RemoveTagKeepsWellFormed(state.0, tag);
      }
      ReplayKeepsWellFormed(Step(state, actions[0]), actions[1..]);
    }
  }

  /** From the form's initial empty tag list, whatever the user does, the
      tags never hold a duplicate, an empty string or a blank string. */
  lemma ReachableTagsWellFormed(input: string, actions: seq<TagAction>)
    ensures WellFormedTags(Replay(([], input), actions).0)
    ensures forall t :: t in Replay(([], input), actions).0 ==> !AllWhitespace(t)
  {
    ReplayKeepsWellFormed(([], input), actions);
  }
}
