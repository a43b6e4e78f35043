/**
 * The computations of the popup's PromptManager (popup.js) that do not touch
 * the page: the tag autocomplete (fragment, suggestions, insertion and the
 * highlighted entry), the theme cycle, the search and tag filters of the
 * prompt list, the form's tag parsing and the wording chosen for an import
 * result.
 */
module Popup {
  import opened Results
  import opened Text
  import opened JsonValues
  import opened KeyValueStore
  import opened Sequences
  import opened PromptRecords
  import opened PromptImport

  // ---------------------------------------------------------------- tag autocomplete

  /** `s.trim().toLowerCase()`. */
  function Normal(s: string): string {
    Lower(Trim(s))
  }

  function NormalEach(parts: seq<string>): (r: seq<string>)
    ensures |r| == |parts| && forall i :: 0 <= i < |parts| ==> r[i] == Normal(parts[i])
  {
    if parts == [] then [] else [Normal(parts[0])] + NormalEach(parts[1..])
  }

  lemma {:induction false} NormalEachAppend(a: seq<string>, b: seq<string>)
    ensures NormalEach(a + b) == NormalEach(a) + NormalEach(b)
  {
    if a == [] {
      assert a + b == b;
    } else {
      assert (a + b)[1..] == a[1..] + b;
      NormalEachAppend(a[1..], b);
    }
  }

  /** The tag being typed: the text after the last comma, trimmed and lower-cased (popup.js:483-484). */
  function Fragment(value: string): string {
    Normal(value[LastIndexOf(value, ',') + 1..])
  }

  /** The tags already entered: the normalised non-empty pieces up to the last comma (popup.js:487-490). */
  function EnteredTags(value: string): seq<string> {
    DropEmpty(NormalEach(Split(value[..LastIndexOf(value, ',') + 1], ',')))
  }

  /** A tag is offered when its lower-case form contains the fragment and was not entered yet. */
  predicate Suggestible(tag: string, fragment: string, entered: seq<string>) {
    Contains(Lower(tag), fragment) && Lower(tag) !in entered
  }

  /** `allTags.filter(...)` of popup.js:498-501: the suggestible tags, in their order. */
  function MatchingTags(tags: seq<string>, fragment: string, entered: seq<string>): (r: seq<string>)
    ensures forall t :: t in r <==> t in tags && Suggestible(t, fragment, entered)
    ensures IsSubsequence(r, tags)
    ensures forall t :: multiset(r)[t] == if Suggestible(t, fragment, entered) then multiset(tags)[t] else 0
  {
    if tags == [] then []
    else
      var rest := MatchingTags(tags[1..], fragment, entered);
      assert tags == [tags[0]] + tags[1..];
      assert multiset(tags) == multiset([tags[0]]) + multiset(tags[1..]);
      if Suggestible(tags[0], fragment, entered) then
        assert ([tags[0]] + rest)[1..] == rest;
        assert multiset([tags[0]] + rest) == multiset([tags[0]]) + multiset(rest);
        [tags[0]] + rest
      else
        SubsequenceSkip(rest, tags[0], tags[1..]);
        rest
  }

  /** What handleTagInput offers for the input text: nothing for an empty fragment (popup.js:478-509). */
  function Suggestions(allTags: seq<string>, value: string): (r: seq<string>)
    ensures Fragment(value) == [] ==> r == []
    ensures Fragment(value) != [] ==>
      forall t :: t in r <==> t in allTags && Suggestible(t, Fragment(value), EnteredTags(value))
    ensures IsSubsequence(r, allTags)
  {
    if Fragment(value) == [] then [] else MatchingTags(allTags, Fragment(value), EnteredTags(value))
  }

  /** The last comma of `head + ',' + tail` is the one after `head` when the tail has none. */
  lemma {:induction false} LastCommaAt(head: string, tail: string)
    requires ',' !in tail
    ensures LastIndexOf(head + [','] + tail, ',') == |head|
    decreases |tail|
  {
    var value := head + [','] + tail;
    if tail != [] {
      var shorter := tail[..|tail| - 1];
      assert tail[|tail| - 1] in tail;
      assert value[..|value| - 1] == head + [','] + shorter;
      LastCommaAt(head, shorter);
    }
  }

  /**
   * The fragment and the entered tags do not depend on how the last comma is
   * found: for any text `head + ',' + tail` whose tail holds no comma, the
   * fragment is the normalised tail and the entered tags come from the head.
   */
  lemma FragmentAfterLastComma(head: string, tail: string)
    requires ',' !in tail
    ensures Fragment(head + [','] + tail) == Normal(tail)
    ensures EnteredTags(head + [','] + tail) == DropEmpty(NormalEach(Split(head, ',')))
  {
    var value := head + [','] + tail;
    LastCommaAt(head, tail);
    SplitAppend(head + [','], tail);
    AppendNothing(head + [',']);
    SplitConcat(head, ',', []);
    NoPiecesOfEmpty();
    NormalEachAppend(Split(head, ','), [[]]);
    DropEmptyAppend(NormalEach(Split(head, ',')), [[]]);
  }

  /** The empty text splits into one empty piece, which leaves no tag. */
  lemma NoPiecesOfEmpty()
    ensures Split([], ',') == [[]]
    ensures NormalEach([[]]) == [[]]
    ensures DropEmpty([[]]) == []
  {
    var one: seq<string> := [[]];
    assert one[1..] == [];
  }

  /** Text without a comma is all fragment; no tag is entered yet. */
  lemma FragmentWithoutComma(value: string)
    requires ',' !in value
    ensures Fragment(value) == Normal(value)
    ensures EnteredTags(value) == []
  {
    assert LastIndexOf(value, ',') == -1;
    assert value[..0] == [];
    NoPiecesOfEmpty();
  }

  /** The text selectTagSuggestion puts in front of its closing ", " (popup.js:556-563). */
  function InsertHead(value: string, tag: string): string {
    var k := LastIndexOf(value, ',');
    var prefix := if k != -1 then value[..k + 1] + [' '] else [];
    prefix + tag
  }

  /** The new value selectTagSuggestion gives the field. */
  function InsertSuggestion(value: string, tag: string): string {
    InsertHead(value, tag) + [',', ' ']
  }

  /** The entered tags of a text with a comma come from the part before its last comma. */
  lemma EnteredAtLastComma(value: string)
    requires LastIndexOf(value, ',') >= 0
    ensures var k := LastIndexOf(value, ',');
            EnteredTags(value) == DropEmpty(NormalEach(Split(value[..k], ',')))
  {
    var k := LastIndexOf(value, ',');
    TakeOneMore(value, k);
    AppendNothing(value[..k] + [',']);
    SplitConcat(value[..k], ',', []);
    NoPiecesOfEmpty();
    NormalEachAppend(Split(value[..k], ','), [[]]);
    DropEmptyAppend(NormalEach(Split(value[..k], ',')), [[]]);
  }

  /** A text without a comma has no entered tags. */
  lemma NothingEnteredWithoutComma(value: string)
    requires LastIndexOf(value, ',') == -1
    ensures EnteredTags(value) == []
  {
    assert value[..0] == [];
    NoPiecesOfEmpty();
  }

  /** After the insertion nothing follows the last comma but a space. */
  lemma InsertedText(value: string, tag: string)
    ensures Fragment(InsertSuggestion(value, tag)) == []
    ensures EnteredTags(InsertSuggestion(value, tag)) == DropEmpty(NormalEach(Split(InsertHead(value, tag), ',')))
  {
    AppendPair(InsertHead(value, tag), ',', ' ');
    FragmentAfterLastComma(InsertHead(value, tag), [' ']);
    TrimOfSpaces([' ']);
  }

  /** A one-tag list of a tag that normalises to something. */
  lemma OneTagKept(tag: string)
    requires Trim(tag) != []
    ensures Normal(tag) != [] && DropEmpty([Normal(tag)]) == [Normal(tag)]
  {
    assert [Normal(tag)][1..] == [];
  }

  /** The tags entered in `before + ', ' + tag`: those of `before`, then the tag. */
  lemma EnteredBeforeTag(before: string, tag: string)
    requires ',' !in tag && Trim(tag) != []
    ensures DropEmpty(NormalEach(Split(before + [','] + ([' '] + tag), ',')))
         == DropEmpty(NormalEach(Split(before, ','))) + [Normal(tag)]
  {
    SplitConcat(before, ',', [' '] + tag);
    SplitOfPiece([' '] + tag, ',');
    TrimAfterSpace(tag);
    NormalEachAppend(Split(before, ','), [[' '] + tag]);
    assert NormalEach([[' '] + tag]) == [Normal(tag)];
    OneTagKept(tag);
    DropEmptyAppend(NormalEach(Split(before, ',')), [Normal(tag)]);
  }

  /** The tags entered in `tag` alone: just the tag. */
  lemma EnteredOnlyTag(tag: string)
    requires ',' !in tag && Trim(tag) != []
    ensures DropEmpty(NormalEach(Split(tag, ','))) == [Normal(tag)]
  {
    SplitOfPiece(tag, ',');
    assert NormalEach([tag]) == [Normal(tag)];
    OneTagKept(tag);
  }

  /** Choosing a tag when no comma was typed yet. */
  lemma ChosenFirstTag(value: string, tag: string)
    requires ',' !in tag && Trim(tag) != [] && LastIndexOf(value, ',') == -1
    ensures EnteredTags(InsertSuggestion(value, tag)) == EnteredTags(value) + [Normal(tag)]
  {
    InsertedText(value, tag);
    assert InsertHead(value, tag) == tag;
    EnteredOnlyTag(tag);
    NothingEnteredWithoutComma(value);
  }

  /** Choosing a tag after the last comma of the text. */
  lemma ChosenLaterTag(value: string, tag: string)
    requires ',' !in tag && Trim(tag) != [] && LastIndexOf(value, ',') >= 0
    ensures EnteredTags(InsertSuggestion(value, tag)) == EnteredTags(value) + [Normal(tag)]
  {
    var before := value[..LastIndexOf(value, ',')];
    InsertedAfterComma(value, tag);
    EnteredBeforeTag(before, tag);
    EnteredAtLastComma(value);
  }

  /** The insertion keeps the text up to the last comma and puts a space and the tag behind it. */
  lemma InsertedAfterComma(value: string, tag: string)
    requires LastIndexOf(value, ',') >= 0
    ensures var before := value[..LastIndexOf(value, ',')];
            EnteredTags(InsertSuggestion(value, tag)) == DropEmpty(NormalEach(Split(before + [','] + ([' '] + tag), ',')))
  {
    var k := LastIndexOf(value, ',');
    InsertedText(value, tag);
    TakeOneMore(value, k);
    Regroup(value[..k], ',', ' ', tag);
  }

  /**
   * After a suggestion is chosen the fragment is empty, so nothing is offered,
   * and the chosen tag is the last entered tag, after the ones entered before.
   */
  lemma ChosenTagIsEntered(allTags: seq<string>, value: string, tag: string)
    requires ',' !in tag && Trim(tag) != []
    ensures Fragment(InsertSuggestion(value, tag)) == []
    ensures Suggestions(allTags, InsertSuggestion(value, tag)) == []
    ensures EnteredTags(InsertSuggestion(value, tag)) == EnteredTags(value) + [Normal(tag)]
  {
    InsertedText(value, tag);
    if LastIndexOf(value, ',') == -1 {
      ChosenFirstTag(value, tag);
    } else {
      ChosenLaterTag(value, tag);
    }
  }

  // ---------------------------------------------------------------- theme

  const Themes: seq<string> := ["auto", "light", "dark"]

  /** `order.indexOf(theme)`: strict equality, so only the three strings are found. */
  function ThemeIndex(theme: Json): (r: int)
    ensures -1 <= r < |Themes|
    ensures r >= 0 ==> theme == Str(Themes[r])
    ensures r == -1 ==> forall i :: 0 <= i < |Themes| ==> theme != Str(Themes[i])
  {
    if theme == Str("auto") then 0
    else if theme == Str("light") then 1
    else if theme == Str("dark") then 2
    else -1
  }

  /** The theme cycleTheme moves to (popup.js:166-167). */
  function NextTheme(theme: Json): (r: string)
    ensures r in Themes
  {
    Themes[(ThemeIndex(theme) + 1) % |Themes|]
  }

  /** auto, light and dark follow each other in a cycle; anything else starts it again at auto. */
  lemma ThemeOrder(theme: Json)
    ensures NextTheme(Str("auto")) == "light"
    ensures NextTheme(Str("light")) == "dark"
    ensures NextTheme(Str("dark")) == "auto"
    ensures ThemeIndex(theme) == -1 ==> NextTheme(theme) == "auto"
  {
  }

  /** Three steps from any of the three themes lead back to it. */
  lemma ThemeCycle(theme: Json)
    requires ThemeIndex(theme) >= 0
    ensures Str(NextTheme(Str(NextTheme(Str(NextTheme(theme)))))) == theme
  {
    ThemeOrder(theme);
  }

  /** The theme initTheme applies for the stored value: `theme || 'auto'` (popup.js:144-145). */
  function InitialTheme(stored: Json): (r: Json)
    ensures Truthy(r)
    ensures Truthy(stored) ==> r == stored
    ensures !Truthy(stored) ==> r == Str("auto")
  {
    if Truthy(stored) then stored else Str("auto")
  }

  // ---------------------------------------------------------------- the prompt list filters

  /**
   * `array.filter(test)`: the elements the test accepts, in order; a test that
   * throws makes the whole call throw.
   */
  function Keep(xs: seq<Json>, test: Json -> Result<bool>): (r: Result<seq<Json>>)
    ensures r.Err? <==> exists i :: 0 <= i < |xs| && test(xs[i]).Err?
    ensures r.Err? ==> r.error == TypeError || exists i :: 0 <= i < |xs| && test(xs[i]) == Err(r.error)
    ensures r.Ok? ==> IsSubsequence(r.value, xs)
    ensures r.Ok? ==> forall x :: x in r.value <==> x in xs && test(x) == Ok(true)
    ensures r.Ok? ==> forall x :: multiset(r.value)[x] == if test(x) == Ok(true) then multiset(xs)[x] else 0
  {
    if xs == [] then Ok([])
    else
      assert forall i :: 0 < i < |xs| ==> xs[i] == xs[1..][i - 1];
      match test(xs[0])
      case Err(e) => Err(e)
      case Ok(keep) =>
        match Keep(xs[1..], test)
        case Err(e) => Err(e)
        case Ok(rest) =>
          assert xs == [xs[0]] + xs[1..];
          assert multiset(xs) == multiset([xs[0]]) + multiset(xs[1..]);
          if keep then
            assert ([xs[0]] + rest)[1..] == rest;
            assert multiset([xs[0]] + rest) == multiset([xs[0]]) + multiset(rest);
            Ok([xs[0]] + rest)
          else
            SubsequenceSkip(rest, xs[0], xs[1..]);
            Ok(rest)
  }

  /** `prompt.label.toLowerCase().includes(term)` (popup.js:370-372); a missing or non-string label throws. */
  function LabelMatches(prompt: Json, term: string): Result<bool> {
    var shown :- Prop(prompt, "label");
    if shown.Str? then Ok(Contains(Lower(shown.s), term)) else Err(TypeError)
  }

  /**
   * `prompt.tags && prompt.tags.includes(tag)` (popup.js:377-379): an array is
   * searched for the string, a string for the substring; any other truthy
   * value has no `includes` and throws.
   */
  function TagMatches(prompt: Json, tag: string): Result<bool> {
    var tags :- Prop(prompt, "tags");
    if !Truthy(tags) then Ok(false)
    else match tags
      case Arr(items) => Ok(Str(tag) in items)
      case Str(s) => Ok(Contains(s, tag))
      case _ => Err(TypeError)
  }

  /** The prompts renderPrompts shows: the search filter first, then the tag filter, each only when set. */
  function VisiblePrompts(prompts: seq<Json>, search: string, tag: string): Result<seq<Json>> {
    var found :- if search != [] then Keep(prompts, p => LabelMatches(p, search)) else Ok(prompts);
    if tag != [] then Keep(found, p => TagMatches(p, tag)) else Ok(found)
  }

  /**
   * The visible list is the input with some prompts left out and the rest in
   * order; a prompt is shown exactly when it passes each filter that is set.
   */
  lemma VisiblePromptsSpec(prompts: seq<Json>, search: string, tag: string)
    requires VisiblePrompts(prompts, search, tag).Ok?
    ensures IsSubsequence(VisiblePrompts(prompts, search, tag).value, prompts)
    ensures forall p :: p in VisiblePrompts(prompts, search, tag).value <==>
      && p in prompts
      && (search != [] ==> LabelMatches(p, search) == Ok(true))
      && (tag != [] ==> TagMatches(p, tag) == Ok(true))
  {
    var found := if search != [] then Keep(prompts, p => LabelMatches(p, search)) else Ok(prompts);
    if search == [] {
      PrefixIsSubsequence(prompts, |prompts|);
      assert prompts[..|prompts|] == prompts;
    }
    if tag != [] {
      SubsequenceTrans(VisiblePrompts(prompts, search, tag).value, found.value, prompts);
    }
  }

  /** With no filter set every prompt is shown. */
  lemma NoFilterShowsAll(prompts: seq<Json>)
    ensures VisiblePrompts(prompts, [], []) == Ok(prompts)
  {
  }

  // ---------------------------------------------------------------- the form

  /** `tagsInput ? tagsInput.split(',').map(t => t.trim()).filter(t => t) : []` (popup.js:298). */
  function FormTags(tagsInput: string): (r: seq<string>)
    ensures forall t :: t in r ==> t != [] && IsTrimmed(t) && ',' !in t
  {
    if tagsInput != [] then CommaListPieces(tagsInput); CommaList(tagsInput) else []
  }

  /**
   * The prompt handleSubmit passes to savePrompt, or None when the trimmed
   * title or content is empty and the form is refused (popup.js:289-305).
   */
  function Submission(title: string, content: string, tags: string, editId: Json): (r: Option<Json>)
    ensures r.None? <==> Trim(title) == [] || Trim(content) == []
    ensures r.Some? ==>
      && r.value.Obj? && "label" in r.value.fields && "template" in r.value.fields && "id" in r.value.fields
      && r.value.fields["label"] == Str(Trim(title)) && Trim(title) != []
      && r.value.fields["template"] == Str(Trim(content)) && Trim(content) != []
      && r.value.fields["id"] == editId
    ensures r.Some? ==> "tags" in r.value.fields && r.value.fields["tags"] == Arr(StrTags(FormTags(Trim(tags))))
  {
    var labelText := Trim(title);
    var template := Trim(content);
    if labelText == [] || template == [] then None
    else
      var parsed := FormTags(Trim(tags));
      Some(Obj(map["id" := editId, "label" := Str(labelText), "template" := Str(template),
                   "tags" := Arr(StrTags(parsed))]))
  }

  /**
   * What savePrompt makes of a submitted form: the trimmed title and content
   * as they are, the parsed tags as strings, and the edit id when there is one.
   */
  lemma SubmissionIsSaved(title: string, content: string, tags: string, editId: Json, freshId: string)
    requires Submission(title, content, tags, editId).Some?
    ensures Normalize(Submission(title, content, tags, editId).value, freshId)
            == Ok(Prompt(if Truthy(editId) then editId else Str(freshId),
                         Trim(title), Trim(content), StrTags(FormTags(Trim(tags)))))
  {
    var sub := Submission(title, content, tags, editId).value;
    assert Field(sub, "label") == Str(Trim(title));
    assert Field(sub, "template") == Str(Trim(content));
    assert Field(sub, "tags") == Arr(StrTags(FormTags(Trim(tags))));
    assert Field(sub, "id") == editId;
  }

  /** `tags.join(', ')`, the text loadPromptForEdit puts in the tag field (popup.js:279). */
  function TagsText(tags: seq<string>): string {
    if tags == [] then []
    else if |tags| == 1 then tags[0]
    else tags[0] + [',', ' '] + TagsText(tags[1..])
  }

  /** The later pieces of a joined tag text: each tag behind the space that follows its comma. */
  function Spaced(tags: seq<string>): (r: seq<string>)
    ensures |r| == |tags|
  {
    if tags == [] then [] else [[' '] + tags[0]] + Spaced(tags[1..])
  }

  lemma {:induction false} SplitTagsText(tags: seq<string>)
    requires tags != []
    requires forall i :: 0 <= i < |tags| ==> ',' !in tags[i]
    ensures Split(TagsText(tags), ',') == [tags[0]] + Spaced(tags[1..])
  {
    if |tags| == 1 {
      SplitOfPiece(tags[0], ',');
    } else {
      var rest := tags[1..];
      SplitTagsText(rest);
      var j := TagsText(rest);
      assert TagsText(tags) == tags[0] + [','] + ([' '] + j);
      SplitAfterPiece(tags[0], ',', [' '] + j);
      assert ([' '] + j)[1..] == j;
      assert Split([' '] + j, ',') == Spaced(rest);
    }
  }

  lemma {:induction false} TrimSpaced(tags: seq<string>)
    requires forall i :: 0 <= i < |tags| ==> IsTrimmed(tags[i])
    ensures TrimEach(Spaced(tags)) == tags
  {
    if tags != [] {
      TrimAfterSpace(tags[0]);
      TrimSpaced(tags[1..]);
    }
  }

  /** Trimmed, non-empty tags without commas survive being shown for editing and submitted again. */
  lemma EditKeepsTags(tags: seq<string>)
    requires forall i :: 0 <= i < |tags| ==> tags[i] != [] && IsTrimmed(tags[i]) && ',' !in tags[i]
    ensures FormTags(Trim(TagsText(tags))) == tags
  {
    if tags != [] {
      TagsTextTrimmed(tags);
      CommaListOfTagsText(tags);
    }
  }

  lemma CommaListOfTagsText(tags: seq<string>)
    requires tags != []
    requires forall i :: 0 <= i < |tags| ==> tags[i] != [] && IsTrimmed(tags[i]) && ',' !in tags[i]
    ensures CommaList(TagsText(tags)) == tags
  {
    SplitTagsText(tags);
    TrimPieces(tags);
    DropEmptyKeepsFull(tags);
  }

  lemma TrimPieces(tags: seq<string>)
    requires tags != []
    requires forall i :: 0 <= i < |tags| ==> IsTrimmed(tags[i])
    ensures TrimEach([tags[0]] + Spaced(tags[1..])) == tags
  {
    TrimSpaced(tags[1..]);
    TrimEachCons(tags[0], Spaced(tags[1..]));
    HeadAndTail(tags);
  }

  lemma TrimEachCons(x: string, rest: seq<string>)
    ensures TrimEach([x] + rest) == [Trim(x)] + TrimEach(rest)
  {
    ConsParts(x, rest);
  }

  lemma {:induction false} TagsTextTrimmed(tags: seq<string>)
    requires tags != []
    requires forall i :: 0 <= i < |tags| ==> tags[i] != [] && IsTrimmed(tags[i])
    ensures TagsText(tags) != [] && IsTrimmed(TagsText(tags))
    ensures TagsText(tags)[0] == tags[0][0]
    ensures TagsText(tags)[|TagsText(tags)| - 1] == tags[|tags| - 1][|tags[|tags| - 1]| - 1]
  {
    if |tags| > 1 {
      TagsTextTrimmed(tags[1..]);
    }
  }

  // ---------------------------------------------------------------- import result

  /** The three notifications of handleImportFile (popup.js:722-728). */
  datatype ImportNotice = NoNewPrompts | ImportedAll | ImportedSome

  function Classify(s: ImportSummary): (r: ImportNotice)
    ensures r == NoNewPrompts <==> s.imported == 0
    ensures r == ImportedAll <==> s.imported != 0 && s.imported == s.total
    ensures r == ImportedSome <==> s.imported != 0 && s.imported != s.total
  {
    if s.imported == 0 then NoNewPrompts
    else if s.imported == s.total then ImportedAll
    else ImportedSome
  }

  /** For a summary importPrompts returns, a partial import is one that took some but not all candidates. */
  lemma PartialImportIsPartial(items: map<string, Json>, reachable: bool, doc: Document, mint: nat -> string)
    requires ImportOutcome(items, reachable, doc, mint).0.Ok?
    ensures var s := ImportOutcome(items, reachable, doc, mint).0.value;
            Classify(s) == ImportedSome <==> 0 < s.imported < s.total
  {
  }

  /** `file.name.toLowerCase().endsWith('.json')` (popup.js:709): the extension check ignores case. */
  predicate AcceptsFileName(name: string) {
    EndsWith(Lower(name), ".json")
  }

  lemma AcceptsAnyCase(name: string)
    ensures AcceptsFileName(name) <==> AcceptsFileName(Lower(name))
  {
    LowerTwice(name);
  }

  // ---------------------------------------------------------------- the manager's state

  /** The keys handleTagKeydown tells apart (popup.js:575-615). */
  datatype Key = ArrowDown | ArrowUp | Enter | Escape | Tab | OtherKey

  /** The tag field and its suggestion list: the text, the entries, whether the list is hidden, the highlight. */
  datatype TagWidget = TagWidget(text: string, entries: seq<string>, hidden: bool, active: int)

  /** The rest of the manager's state: the edited prompt, the two filters, the known tags, the theme. */
  datatype PopupFields = PopupFields(editId: Json, tagFilter: string, searchFilter: string, tags: seq<string>, theme: Json)

  /** A closed suggestion list under the given text, as hideTagSuggestions leaves it. */
  function Closed(text: string): TagWidget {
    TagWidget(text, [], true, -1)
  }

  class PromptManager {
    /** The storage area the popup writes its theme to. */
    const area: StorageArea
    var currentEditId: Json
    var currentFilter: string
    var currentSearchFilter: string
    var allTags: seq<string>
    var activeAutocompleteIndex: int
    var currentTheme: Json
    /** The text of the tag field. */
    var tagInput: string
    /** The entries of the suggestion list, and whether it is hidden. */
    var suggestions: seq<string>
    var suggestionsHidden: bool

    /** The highlighted entry is -1 or an entry of the list; a hidden list is empty. */
    predicate Valid()
      reads this
    {
      && (activeAutocompleteIndex == -1 || 0 <= activeAutocompleteIndex < |suggestions|)
      && (suggestionsHidden ==> suggestions == [])
    }

    /** The tag field's state. */
    function Widget(): TagWidget
      reads this
    {
      TagWidget(tagInput, suggestions, suggestionsHidden, activeAutocompleteIndex)
    }

    /** Every other field. */
    function Fields(): PopupFields
      reads this
    {
      PopupFields(currentEditId, currentFilter, currentSearchFilter, allTags, currentTheme)
    }

    /** The fields popup.js:2-7 sets; the theme stays undefined until initTheme. */
    constructor (area: StorageArea)
      ensures Valid() && this.area == area
      ensures currentEditId == Null && currentFilter == [] && currentSearchFilter == []
      ensures allTags == [] && activeAutocompleteIndex == -1 && currentTheme == Undefined
      ensures tagInput == [] && suggestions == [] && suggestionsHidden
    {
      this.area := area;
      currentEditId := Null;
      currentFilter := [];
      currentSearchFilter := [];
      allTags := [];
      activeAutocompleteIndex := -1;
      currentTheme := Undefined;
      tagInput := [];
      suggestions := [];
      suggestionsHidden := true;
    }

    /** hideTagSuggestions (popup.js:546-551). */
    method HideSuggestions()
      modifies this
      ensures Valid()
      ensures Widget() == Closed(old(tagInput))
      ensures Fields() == old(Fields())
    {
      suggestionsHidden := true;
      suggestions := [];
      activeAutocompleteIndex := -1;
    }

    /** handleTagInput (popup.js:478-509), for the new text of the tag field. */
    method HandleTagInput(value: string)
      modifies this
      ensures Valid()
      ensures tagInput == value
      ensures suggestions == Suggestions(allTags, value)
      ensures suggestionsHidden <==> suggestions == []
      ensures activeAutocompleteIndex == -1
      ensures Fields() == old(Fields())
    {
      tagInput := value;
      var fragment := Fragment(value);
      if fragment == [] {
        assert Suggestions(allTags, value) == [];
        HideSuggestions();
        return;
      }
      var matches := MatchingTags(allTags, fragment, EnteredTags(value));
      assert matches == Suggestions(allTags, value);
      if matches == [] {
        HideSuggestions();
        return;
      }
      suggestions := matches;
      suggestionsHidden := false;
      activeAutocompleteIndex := -1;
    }

    /** selectTagSuggestion (popup.js:553-566). */
    method SelectTagSuggestion(tag: string)
      modifies this
      ensures Valid()
      ensures Widget() == Closed(InsertSuggestion(old(tagInput), tag))
      ensures Fields() == old(Fields())
    {
      tagInput := InsertSuggestion(tagInput, tag);
      HideSuggestions();
    }

    /**
     * handleTagKeydown (popup.js:568-617): the arrows move the highlight within
     * [-1, n-1], Enter and Tab take the highlighted entry when there is one,
     * Escape (and Tab with nothing highlighted) closes the list.
     */
    method HandleTagKeydown(key: Key)
      requires Valid()
      modifies this
      ensures Valid()
      ensures Fields() == old(Fields())
      ensures old(suggestionsHidden) || old(suggestions) == [] ==> Widget() == old(Widget())
      ensures !old(suggestionsHidden) && old(suggestions) != [] ==>
        var w, i, n := old(Widget()), old(activeAutocompleteIndex), |old(suggestions)|;
        && (key == ArrowDown ==> Widget() == w.(active := Min(i + 1, n - 1)))
        && (key == ArrowUp ==> Widget() == w.(active := Max(i - 1, -1)))
        && ((key == Enter || key == Tab) && 0 <= i < n ==> Widget() == Closed(InsertSuggestion(w.text, w.entries[i])))
        && (key == Enter && !(0 <= i < n) ==> Widget() == w)
        && ((key == Escape || (key == Tab && !(0 <= i < n))) ==> Widget() == Closed(w.text))
        && (key == OtherKey ==> Widget() == w)
    {
      if suggestionsHidden {
        return;
      }
      var items := suggestions;
      if |items| == 0 {
        return;
      }
      match key
      case ArrowDown =>
        activeAutocompleteIndex := Min(activeAutocompleteIndex + 1, |items| - 1);
      case ArrowUp =>
        activeAutocompleteIndex := Max(activeAutocompleteIndex - 1, -1);
      case Enter =>
        if 0 <= activeAutocompleteIndex < |items| {
          SelectTagSuggestion(items[activeAutocompleteIndex]);
        }
      case Escape =>
        HideSuggestions();
      case Tab =>
        if 0 <= activeAutocompleteIndex < |items| {
          SelectTagSuggestion(items[activeAutocompleteIndex]);
        } else {
          HideSuggestions();
        }
      case OtherKey =>
    }

    /** searchPrompts (popup.js:473-476): the term is lower-cased, then trimmed. */
    method SearchPrompts(term: string)
      modifies this
      ensures Fields() == old(Fields()).(searchFilter := Trim(Lower(term)))
      ensures Widget() == old(Widget()) && Valid() == old(Valid())
    {
      currentSearchFilter := Trim(Lower(term));
    }

    /** filterPrompts (popup.js:468-471). */
    method FilterPrompts(tag: string)
      modifies this
      ensures Fields() == old(Fields()).(tagFilter := tag)
      ensures Widget() == old(Widget()) && Valid() == old(Valid())
    {
      currentFilter := tag;
    }

    /** What renderPrompts lists for the prompts it is given, under the current filters. */
    function Visible(prompts: seq<Json>): Result<seq<Json>>
      reads this
    {
      VisiblePrompts(prompts, currentSearchFilter, currentFilter)
    }

    /** initTheme (popup.js:143-146): a rejected read leaves the theme as it was. */
    method InitTheme()
      modifies this
      ensures area.reachable ==> Fields() == old(Fields()).(theme := InitialTheme(Lookup(area.items, "theme")))
      ensures !area.reachable ==> Fields() == old(Fields())
      ensures Widget() == old(Widget()) && Valid() == old(Valid())
    {
      var got := area.Get(OneKey("theme"));
      if got.Some? {
        currentTheme := InitialTheme(got.value["theme"]);
      }
    }

    /** cycleTheme (popup.js:165-170): the next theme is applied, then stored. */
    method CycleTheme()
      modifies this, area
      ensures Fields() == old(Fields()).(theme := Str(NextTheme(old(currentTheme))))
      ensures Widget() == old(Widget()) && Valid() == old(Valid())
      ensures area.reachable == old(area.reachable)
      ensures area.items == if area.reachable then old(area.items)["theme" := currentTheme] else old(area.items)
    {
      var next := NextTheme(currentTheme);
      currentTheme := Str(next);
      var _ := area.Set(map["theme" := Str(next)]);
    }
  }

  /**
   * A theme cycled in one popup is the theme the next popup opens with: cycleTheme
   * stores it, and initTheme in a popup opened on the same storage reads it back.
   */
  method ThemeSurvivesReopen(m: PromptManager) returns (n: PromptManager)
    requires m.area.reachable
    modifies m, m.area
    ensures n.area == m.area && n.currentTheme == m.currentTheme
    ensures n.currentTheme == Str(NextTheme(old(m.currentTheme)))
  {
    m.CycleTheme();
    n := new PromptManager(m.area);
    n.InitTheme();
  }

  /** The search term is normalised once and for all: normalising it again changes nothing. */
  lemma SearchTermSettled(term: string)
    ensures Trim(Lower(Trim(Lower(term)))) == Trim(Lower(term))
  {
    LowerTrimCommute(Lower(term));
    LowerTwice(term);
  }
}
