/** The history page: a bounded list of past interactions kept under one
    `localStorage` key, loaded once when the page mounts, cleared on request,
    and rendered entry by entry with a skill label and the result's fields. */
module History {
  import opened JsValues
  import opened Skills
  import opened BrowserStorage

  const HistoryKey: string := "aiPlaygroundHistory"
  const HistoryLimit: nat := 10

  /** `enforceHistoryLimit`: an array keeps its first ten elements in order;
      every other value comes back as it is. */
  function EnforceHistoryLimit(v: JsValue): (r: JsValue)
    ensures v.Arr? ==> r.Arr? && r.items <= v.items
    ensures v.Arr? ==> |r.items| == if |v.items| <= HistoryLimit then |v.items| else HistoryLimit
    ensures !v.Arr? ==> r == v
  {
    if v.Arr? && |v.items| > HistoryLimit then Arr(v.items[..HistoryLimit]) else v
  }

  /** Arrays of at most ten entries, and values that are not arrays, are left alone. */
  lemma ShortHistoryUnchanged(v: JsValue)
    requires !v.Arr? || |v.items| <= HistoryLimit
    ensures EnforceHistoryLimit(v) == v
  {
  }

  /** Applying the limit twice is applying it once. */
  lemma EnforceHistoryLimitIdempotent(v: JsValue)
    ensures EnforceHistoryLimit(EnforceHistoryLimit(v)) == EnforceHistoryLimit(v)
  {
  }

  // ---------------------------------------------------------------------
  // Loading and clearing

  /** What the load effect does to the stored key. */
  datatype StorageEffect = Untouched | Rewritten(text: string) | Removed

  /** What the load effect does: the history it installs (None when it never
      calls `setHistory`) and what it does to the stored key. */
  datatype LoadOutcome = LoadOutcome(installed: Option<JsValue>, effect: StorageEffect)

  /** The mount-time load, given the stored text (None when the key is
      missing), `JSON.parse` (None when it throws) and `JSON.stringify`.
      Either throw (a parse error, or `.length` read on `null`) lands in the
      catch block, which removes the key and installs an empty history. */
  function LoadPlan(saved: Option<string>, parse: string -> Option<JsValue>,
                    stringify: JsValue -> string): LoadOutcome
  {
    if saved.None? || saved.value == "" then LoadOutcome(None, Untouched)
    else match parse(saved.value)
      case None => LoadOutcome(Some(Arr([])), Removed)
      case Some(parsed) =>
        var limited := EnforceHistoryLimit(parsed);
        if Nullish(limited) then LoadOutcome(Some(Arr([])), Removed)
        else if LengthProperty(limited) != LengthProperty(parsed) then
          LoadOutcome(Some(limited), Rewritten(stringify(limited)))
        else LoadOutcome(Some(limited), Untouched)
  }

  /** The stored items after an effect on `key`. */
  function ApplyEffect(items: map<string, string>, key: string, effect: StorageEffect): map<string, string> {
    match effect
    case Untouched => items
    case Rewritten(text) => items[key := text]
    case Removed => items - {key}
  }

  /** Nothing stored, or an empty string stored: history stays as it is and
      storage is not touched. */
  lemma LoadWithNothingStored(saved: Option<string>, parse: string -> Option<JsValue>,
                              stringify: JsValue -> string)
    requires saved.None? || saved == Some("")
    ensures LoadPlan(saved, parse, stringify) == LoadOutcome(None, Untouched)
  {
  }

  /** A stored array of more than ten entries is cut to its first ten, which
      become the history and are written back. */
  lemma LoadTruncatesLongHistory(text: string, entries: seq<JsValue>,
                                 parse: string -> Option<JsValue>, stringify: JsValue -> string)
    requires text != "" && parse(text) == Some(Arr(entries)) && |entries| > HistoryLimit
    ensures LoadPlan(Some(text), parse, stringify)
         == LoadOutcome(Some(Arr(entries[..HistoryLimit])), Rewritten(stringify(Arr(entries[..HistoryLimit]))))
  {
  }

  /** A stored array of at most ten entries becomes the history as it is and
      is not rewritten. */
  lemma LoadKeepsShortHistory(text: string, entries: seq<JsValue>,
                              parse: string -> Option<JsValue>, stringify: JsValue -> string)
    requires text != "" && parse(text) == Some(Arr(entries)) && |entries| <= HistoryLimit
    ensures LoadPlan(Some(text), parse, stringify) == LoadOutcome(Some(Arr(entries)), Untouched)
  {
  }

  /** A stored value that parses to something other than an array or `null`
      becomes the history unchanged and is not rewritten. */
  lemma LoadKeepsNonArray(text: string, v: JsValue,
                          parse: string -> Option<JsValue>, stringify: JsValue -> string)
    requires text != "" && parse(text) == Some(v) && !v.Arr? && !Nullish(v)
    ensures LoadPlan(Some(text), parse, stringify) == LoadOutcome(Some(v), Untouched)
  {
  }

  /** Stored text that does not parse, or parses to `null`, is removed and
      the history becomes empty. */
  lemma LoadSelfHeals(text: string, parse: string -> Option<JsValue>, stringify: JsValue -> string)
    requires text != "" && (parse(text).None? || parse(text) == Some(Null))
    ensures LoadPlan(Some(text), parse, stringify) == LoadOutcome(Some(Arr([])), Removed)
  {
  }

  /** A stored value is rewritten exactly when it is an array of more than
      ten entries. */
  lemma LoadRewritesOnlyLongArrays(text: string, parse: string -> Option<JsValue>,
                                   stringify: JsValue -> string)
    requires text != ""
    ensures LoadPlan(Some(text), parse, stringify).effect.Rewritten?
        <==> parse(text).Some? && parse(text).value.Arr? && |parse(text).value.items| > HistoryLimit
  {
  }

  /** The installed history is never longer than ten entries. */
  lemma LoadedHistoryBounded(saved: Option<string>, parse: string -> Option<JsValue>,
                             stringify: JsValue -> string)
    ensures var plan := LoadPlan(saved, parse, stringify);
      plan.installed.Some? && plan.installed.value.Arr? ==> |plan.installed.value.items| <= HistoryLimit
  {
  }

  /** When `JSON.parse` reads back the truncated array that the first load
      wrote (only a long array is ever written back), a second load after the
      first one rewrites nothing and installs, if anything, the same history:
      loading is idempotent. */
  lemma LoadTwiceIsLoadOnce(items: map<string, string>, parse: string -> Option<JsValue>,
                            stringify: JsValue -> string)
    requires var first := LoadPlan(Lookup(items, HistoryKey), parse, stringify);
      first.effect.Rewritten? ==> parse(first.effect.text) == first.installed
    ensures var first := LoadPlan(Lookup(items, HistoryKey), parse, stringify);
      var second := LoadPlan(Lookup(ApplyEffect(items, HistoryKey, first.effect), HistoryKey), parse, stringify);
      second.effect == Untouched && (second.installed.None? || second.installed == first.installed)
  {
  }

  /** After `clearHistory`, a later visit to the page loads nothing. */
  lemma ReloadAfterClearLoadsNothing(items: map<string, string>, parse: string -> Option<JsValue>,
                                     stringify: JsValue -> string)
    ensures LoadPlan(Lookup(items - {HistoryKey}, HistoryKey), parse, stringify) == LoadOutcome(None, Untouched)
  {
  }

  /** The page's state: the in-memory history and the shared storage. */
  class HistoryPage {
    const store: LocalStorage
    var history: JsValue

    /** Mounting starts with an empty history, before the load effect runs. */
    constructor (store: LocalStorage)
      ensures this.store == store && history == Arr([])
    {
      this.store := store;
      history := Arr([]);
    }

    /** The mount-time load effect. */
    method Load(parse: string -> Option<JsValue>, stringify: JsValue -> string)
      modifies this, store
      ensures var plan := LoadPlan(old(store.GetItem(HistoryKey)), parse, stringify);
        && history == (if plan.installed.Some? then plan.installed.value else old(history))
        && store.items == ApplyEffect(old(store.items), HistoryKey, plan.effect)
    {
      var saved := store.GetItem(HistoryKey);
      if saved.Some? && saved.value != "" {
        var parsed := parse(saved.value);
        if parsed.None? {
          store.RemoveItem(HistoryKey);
          history := Arr([]);
        } else {
          var limited := EnforceHistoryLimit(parsed.value);
          if Nullish(limited) {
            store.RemoveItem(HistoryKey);
            history := Arr([]);
          } else {
            if LengthProperty(limited) != LengthProperty(parsed.value) {
              store.SetItem(HistoryKey, stringify(limited));
            }
            history := limited;
          }
        }
      }
    }

    /** `clearHistory`: forget the stored key and empty the list. */
    method ClearHistory()
      modifies this, store
      ensures history == Arr([])
      ensures store.items == old(store.items) - {HistoryKey}
    {
      store.RemoveItem(HistoryKey);
      history := Arr([]);
    }
  }

  // ---------------------------------------------------------------------
  // Display decisions

  /** `getSkillDisplayName`: the label of a known skill, anything else unchanged. */
  function SkillDisplayName(skill: JsValue): (r: JsValue)
    ensures skill == Str(Conversation) ==> r == Str("Conversation Analysis")
    ensures skill == Str(Image) ==> r == Str("Image Analysis")
    ensures skill == Str(DocumentUrl) ==> r == Str("Document/URL Summarization")
    ensures !(skill.Str? && IsKnownSkill(skill.s)) ==> r == skill
  {
    if skill == Str(Conversation) then Str("Conversation Analysis")
    else if skill == Str(Image) then Str("Image Analysis")
    else if skill == Str(DocumentUrl) then Str("Document/URL Summarization")
    else skill
  }

  /** The three known skills get three distinct labels, none of which is a
      skill identifier. */
  lemma DisplayNamesDistinct(a: string, b: string)
    requires IsKnownSkill(a) && IsKnownSkill(b) && a != b
    ensures SkillDisplayName(Str(a)) != SkillDisplayName(Str(b))
    ensures SkillDisplayName(Str(a)) != Str(a) && SkillDisplayName(Str(a)) != Str(b)
  {
  }

  /** How a field's value is shown: as it is, joined with a separator (an
      array of tags or key points), or as indented JSON. */
  datatype Content = Text(value: JsValue) | Joined(items: seq<JsValue>, separator: string) | PrettyJson(value: JsValue)

  /** One block of the output panel, with its heading ("Summary:", ...) or none. */
  datatype Block = Block(heading: Option<string>, content: Content)

  datatype Rendered = NoResult | Blocks(blocks: seq<Block>)

  function FieldBlock(result: JsValue, key: string, heading: string): seq<Block> {
    var v := Get(result, key);
    if Truthy(v) then [Block(Some(heading), Text(v))] else []
  }

  function ListBlock(result: JsValue, key: string, heading: string, separator: string): seq<Block> {
    var v := Get(result, key);
    if Truthy(v) then [Block(Some(heading), ListContent(v, separator))] else []
  }

  function ListContent(v: JsValue, separator: string): Content {
    if v.Arr? then Joined(v.items, separator) else Text(v)
  }

  function PlainTextBlock(result: JsValue, shown: bool): seq<Block> {
    if shown then [Block(None, Text(Get(result, "text")))] else []
  }

  /** `xs` is `ys` with some elements left out and the rest kept in order. */
  predicate IsSubsequence<T(==)>(xs: seq<T>, ys: seq<T>)
    decreases |ys|
  {
    if ys == [] then xs == []
    else (xs != [] && xs[0] == ys[0] && IsSubsequence(xs[1..], ys[1..])) || IsSubsequence(xs, ys[1..])
  }

  /** Leaving out nothing or everything of a one-element sequence. */
  lemma OptionalIsSubsequence<T>(xs: seq<T>, y: T)
    requires xs == [] || xs == [y]
    ensures IsSubsequence(xs, [y])
  {
    assert [y][1..] == [];
  }

  /** Subsequences of two parts combine into a subsequence of the whole. */
  lemma {:induction false} SubsequenceConcat<T>(xs1: seq<T>, ys1: seq<T>, xs2: seq<T>, ys2: seq<T>)
    requires IsSubsequence(xs1, ys1) && IsSubsequence(xs2, ys2)
    ensures IsSubsequence(xs1 + xs2, ys1 + ys2)
    decreases |ys1|
  {
    if ys1 == [] {
      assert xs1 + xs2 == xs2 && ys1 + ys2 == ys2;
    } else {
      assert (ys1 + ys2)[1..] == ys1[1..] + ys2;
      if xs1 != [] && xs1[0] == ys1[0] && IsSubsequence(xs1[1..], ys1[1..]) {
        SubsequenceConcat(xs1[1..], ys1[1..], xs2, ys2);
        assert (xs1 + xs2)[1..] == xs1[1..] + xs2;
      } else {
        SubsequenceConcat(xs1, ys1[1..], xs2, ys2);
      }
    }
  }

  /** Keeping or dropping each of three candidates keeps their order. */
  lemma OrderedSelection3<T>(b0: seq<T>, b1: seq<T>, b2: seq<T>, cs: seq<T>)
    requires |cs| == 3
    requires b0 == [] || b0 == [cs[0]]
    requires b1 == [] || b1 == [cs[1]]
    requires b2 == [] || b2 == [cs[2]]
    ensures IsSubsequence(b0 + b1 + b2, cs)
  {
    OptionalIsSubsequence(b0, cs[0]);
    OptionalIsSubsequence(b1, cs[1]);
    OptionalIsSubsequence(b2, cs[2]);
    SubsequenceConcat(b0, [cs[0]], b1, [cs[1]]);
    SubsequenceConcat(b0 + b1, [cs[0], cs[1]], b2, [cs[2]]);
    assert [cs[0], cs[1]] + [cs[2]] == cs;
  }

  /** Keeping or dropping each of four candidates keeps their order. */
  lemma OrderedSelection4<T>(b0: seq<T>, b1: seq<T>, b2: seq<T>, b3: seq<T>, cs: seq<T>)
    requires |cs| == 4
    requires b0 == [] || b0 == [cs[0]]
    requires b1 == [] || b1 == [cs[1]]
    requires b2 == [] || b2 == [cs[2]]
    requires b3 == [] || b3 == [cs[3]]
    ensures IsSubsequence(b0 + b1 + b2 + b3, cs)
  {
    OrderedSelection3(b0, b1, b2, cs[..3]);
    OptionalIsSubsequence(b3, cs[3]);
    SubsequenceConcat(b0 + b1 + b2, cs[..3], b3, [cs[3]]);
    assert cs[..3] + [cs[3]] == cs;
  }

  /** Whether the rendering shows `content` under `heading`. */
  predicate Shows(r: Rendered, heading: Option<string>, content: Content) {
    r.Blocks? && Block(heading, content) in r.blocks
  }

  predicate FieldSet(result: JsValue, key: string) {
    Truthy(Get(result, key))
  }

  /** Every block a conversation result can show, in display order. */
  function ConversationCandidates(result: JsValue): seq<Block> {
    [Block(Some("Transcript:"), Text(Get(result, "transcript"))),
     Block(Some("Diarization:"), Text(Get(result, "diarization"))),
     Block(Some("Summary:"), Text(Get(result, "summary"))),
     Block(None, Text(Get(result, "text")))]
  }

  /** The blocks shown for a conversation result: a selection of its
      candidates, in their order. */
  function ConversationBlocks(result: JsValue): (bs: seq<Block>)
    ensures IsSubsequence(bs, ConversationCandidates(result))
    ensures Block(Some("Transcript:"), Text(Get(result, "transcript"))) in bs <==> FieldSet(result, "transcript")
    ensures Block(Some("Diarization:"), Text(Get(result, "diarization"))) in bs <==> FieldSet(result, "diarization")
    ensures Block(Some("Summary:"), Text(Get(result, "summary"))) in bs <==> FieldSet(result, "summary")
    ensures Block(None, Text(Get(result, "text"))) in bs
        <==> FieldSet(result, "text") && !FieldSet(result, "transcript")
             && !FieldSet(result, "diarization") && !FieldSet(result, "summary")
  {
    var cs := ConversationCandidates(result);
    var b0 := FieldBlock(result, "transcript", "Transcript:");
    var b1 := FieldBlock(result, "diarization", "Diarization:");
    var b2 := FieldBlock(result, "summary", "Summary:");
    var b3 := PlainTextBlock(result, FieldSet(result, "text") && !FieldSet(result, "transcript")
                                     && !FieldSet(result, "diarization") && !FieldSet(result, "summary"));
    OrderedSelection4(b0, b1, b2, b3, cs);
    b0 + b1 + b2 + b3
  }

  /** Every block an image result can show, in display order. */
  function ImageCandidates(result: JsValue): seq<Block> {
    [Block(Some("Caption:"), Text(Get(result, "caption"))),
     Block(Some("Description:"), Text(Get(result, "description"))),
     Block(Some("Tags:"), ListContent(Get(result, "tags"), ", ")),
     Block(None, Text(Get(result, "text")))]
  }

  /** The blocks shown for an image result, a selection of its candidates in
      their order; tags do not hide the plain text. */
  function ImageBlocks(result: JsValue): (bs: seq<Block>)
    ensures IsSubsequence(bs, ImageCandidates(result))
    ensures Block(Some("Caption:"), Text(Get(result, "caption"))) in bs <==> FieldSet(result, "caption")
    ensures Block(Some("Description:"), Text(Get(result, "description"))) in bs <==> FieldSet(result, "description")
    ensures Block(Some("Tags:"), ListContent(Get(result, "tags"), ", ")) in bs <==> FieldSet(result, "tags")
    ensures Block(None, Text(Get(result, "text"))) in bs
        <==> FieldSet(result, "text") && !FieldSet(result, "caption") && !FieldSet(result, "description")
  {
    var cs := ImageCandidates(result);
    var b0 := FieldBlock(result, "caption", "Caption:");
    var b1 := FieldBlock(result, "description", "Description:");
    var b2 := ListBlock(result, "tags", "Tags:", ", ");
    var b3 := PlainTextBlock(result, FieldSet(result, "text") && !FieldSet(result, "caption")
                                     && !FieldSet(result, "description"));
    OrderedSelection4(b0, b1, b2, b3, cs);
    b0 + b1 + b2 + b3
  }

  /** Every block a document or URL summary can show, in display order. */
  function DocumentCandidates(result: JsValue): seq<Block> {
    [Block(Some("Summary:"), Text(Get(result, "summary"))),
     Block(Some("Key Points:"), ListContent(Get(result, "key_points"), "\n• ")),
     Block(None, Text(Get(result, "text")))]
  }

  /** The blocks shown for a document or URL summary: a selection of its
      candidates, in their order. */
  function DocumentBlocks(result: JsValue): (bs: seq<Block>)
    ensures IsSubsequence(bs, DocumentCandidates(result))
    ensures Block(Some("Summary:"), Text(Get(result, "summary"))) in bs <==> FieldSet(result, "summary")
    ensures Block(Some("Key Points:"), ListContent(Get(result, "key_points"), "\n• ")) in bs <==> FieldSet(result, "key_points")
    ensures Block(None, Text(Get(result, "text"))) in bs <==> FieldSet(result, "text") && !FieldSet(result, "summary")
  {
    var cs := DocumentCandidates(result);
    var b0 := FieldBlock(result, "summary", "Summary:");
    var b1 := ListBlock(result, "key_points", "Key Points:", "\n• ");
    var b2 := PlainTextBlock(result, FieldSet(result, "text") && !FieldSet(result, "summary"));
    OrderedSelection3(b0, b1, b2, cs);
    b0 + b1 + b2
  }

  /** `renderResult`: what is shown of a stored result. A falsy result shows
      "No result available", an unknown skill the whole result as JSON, and
      a known skill its own fields. */
  function RenderResult(result: JsValue, skill: JsValue): (r: Rendered)
    ensures r.NoResult? <==> !Truthy(result)
    ensures Truthy(result) && !(skill.Str? && IsKnownSkill(skill.s)) ==> r == Blocks([Block(None, PrettyJson(result))])
    ensures Truthy(result) && skill == Str(Conversation) ==>
      && (Shows(r, Some("Transcript:"), Text(Get(result, "transcript"))) <==> FieldSet(result, "transcript"))
      && (Shows(r, Some("Diarization:"), Text(Get(result, "diarization"))) <==> FieldSet(result, "diarization"))
      && (Shows(r, Some("Summary:"), Text(Get(result, "summary"))) <==> FieldSet(result, "summary"))
      && (Shows(r, None, Text(Get(result, "text")))
          <==> FieldSet(result, "text") && !FieldSet(result, "transcript")
               && !FieldSet(result, "diarization") && !FieldSet(result, "summary"))
    ensures Truthy(result) && skill == Str(Image) ==>
      && (Shows(r, Some("Caption:"), Text(Get(result, "caption"))) <==> FieldSet(result, "caption"))
      && (Shows(r, Some("Description:"), Text(Get(result, "description"))) <==> FieldSet(result, "description"))
      && (Shows(r, Some("Tags:"), ListContent(Get(result, "tags"), ", ")) <==> FieldSet(result, "tags"))
      && (Shows(r, None, Text(Get(result, "text")))
          <==> FieldSet(result, "text") && !FieldSet(result, "caption") && !FieldSet(result, "description"))
    ensures Truthy(result) && skill == Str(DocumentUrl) ==>
      && (Shows(r, Some("Summary:"), Text(Get(result, "summary"))) <==> FieldSet(result, "summary"))
      && (Shows(r, Some("Key Points:"), ListContent(Get(result, "key_points"), "\n• ")) <==> FieldSet(result, "key_points"))
      && (Shows(r, None, Text(Get(result, "text"))) <==> FieldSet(result, "text") && !FieldSet(result, "summary"))
    ensures Truthy(result) && skill == Str(Conversation) ==> IsSubsequence(r.blocks, ConversationCandidates(result))
    ensures Truthy(result) && skill == Str(Image) ==> IsSubsequence(r.blocks, ImageCandidates(result))
    ensures Truthy(result) && skill == Str(DocumentUrl) ==> IsSubsequence(r.blocks, DocumentCandidates(result))
  {
    if !Truthy(result) then NoResult
    else if skill == Str(Conversation) then Blocks(ConversationBlocks(result))
    else if skill == Str(Image) then Blocks(ImageBlocks(result))
    else if skill == Str(DocumentUrl) then Blocks(DocumentBlocks(result))
    else Blocks([Block(None, PrettyJson(result))])
  }
}
