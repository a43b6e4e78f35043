/**
 * The PromptStorage class of storage.js: every method reads and writes the
 * `prompts` and `selectors` entries of the local storage area, and each one is
 * proved to leave the store, and to return, what the functions of
 * PromptRecords and PromptImport say.
 */
module Storage {
  import opened Results
  import opened Text
  import opened JsonValues
  import opened KeyValueStore
  import opened PromptRecords
  import opened PromptImport

  class PromptStorage {
    /** `browser.storage.local`, which every method goes through. */
    const area: StorageArea

    constructor (area: StorageArea)
      ensures this.area == area
    {
      this.area := area;
    }

    /**
     * getPrompts (storage.js:11-28): an array is returned as it is, a
     * `{prompts: [...]}` wrapper is unwrapped and written back, any other
     * defined value is reset to [], and a store error yields [].
     */
    method GetPrompts() returns (r: seq<Json>)
      modifies area
      ensures area.reachable == old(area.reachable)
      ensures (r, area.items) == ReadPrompts(old(area.items), old(area.reachable))
    {
      var got := area.Get(OneKey(PromptsKey));
      if got.None? {
        return [];
      }
      var raw := got.value[PromptsKey];
      if raw.Arr? {
        return raw.items;
      }
      if IsWrapper(raw) {
        var inner := raw.fields["prompts"];
        var ok := area.Set(map[PromptsKey := inner]);
        assert ok ==> area.items == old(area.items)[PromptsKey := inner];
        return if ok then inner.items else [];
      }
      if raw != Undefined {
        var ok := area.Set(map[PromptsKey := Arr([])]);
        assert ok ==> area.items == old(area.items)[PromptsKey := Arr([])];
      }
      return [];
    }

    /** `prompts.findIndex(p => p.id === id)`, which throws on a null or undefined record before a match. */
    static method FindIndex(ps: seq<Json>, id: Json) returns (r: Result<int>)
      ensures r == FindIndexById(ps, id)
    {
      var i := 0;
      while i < |ps|
        invariant 0 <= i <= |ps|
        invariant forall j :: 0 <= j < i ==> !Nullish(ps[j]) && !HasId(ps[j], id)
      {
        if Nullish(ps[i]) || HasId(ps[i], id) {
          FindIndexStops(ps, id, i);
          return if Nullish(ps[i]) then Err(TypeError) else Ok(i);
        }
        i := i + 1;
      }
      FindIndexMisses(ps, id);
      return Ok(-1);
    }

    /**
     * savePrompt (storage.js:30-65): the normalised record replaces the
     * first record with its id, or is pushed; the array is written back and
     * the record returned. Errors are rethrown.
     */
    method SavePrompt(prompt: Json, freshId: string) returns (r: Result<Json>)
      modifies area
      ensures area.reachable == old(area.reachable)
      ensures (r, area.items) == SaveOutcome(old(area.items), old(area.reachable), prompt, freshId)
    {
      var prompts := GetPrompts();
      ghost var afterRead := area.items;
      var rec :- Normalize(prompt, freshId);
      prompts :- Upsert(prompts, rec, Truthy(Field(prompt, "id")));
      var ok := area.Set(map[PromptsKey := Arr(prompts)]);
      assert ok ==> area.items == afterRead[PromptsKey := Arr(prompts)];
      if !ok {
        return Err(StoreUnavailable);
      }
      return Ok(AsJson(rec));
    }

    /**
     * storage.js:52-57: `prompts.push(normalized)` without an id, otherwise
     * `prompts[idx] = normalized` at the first record with the id, or a push
     * when there is none.
     */
    static method Upsert(prompts: seq<Json>, rec: Prompt, idGiven: bool) returns (r: Result<seq<Json>>)
      ensures r == Place(prompts, rec, idGiven)
    {
      if !idGiven {
        return Ok(prompts + [AsJson(rec)]);
      }
      var idx :- FindIndex(prompts, rec.id);
      if idx != -1 {
        return Ok(prompts[idx := AsJson(rec)]);
      }
      return Ok(prompts + [AsJson(rec)]);
    }

    /** deletePrompt (storage.js:67-76): keeps the records whose id differs and writes them back. */
    method DeletePrompt(id: string) returns (r: Result<()>)
      modifies area
      ensures area.reachable == old(area.reachable)
      ensures (r, area.items) == DeleteOutcome(old(area.items), old(area.reachable), id)
    {
      var prompts := GetPrompts();
      ghost var afterRead := area.items;
      var kept :- RemoveById(prompts, id);
      var ok := area.Set(map[PromptsKey := Arr(kept)]);
      assert ok ==> area.items == afterRead[PromptsKey := Arr(kept)];
      if !ok {
        return Err(StoreUnavailable);
      }
      return Ok(());
    }

    /** getPromptById (storage.js:78-86): the first record with the id, or null (None). */
    method GetPromptById(id: string) returns (r: Option<Json>)
      modifies area
      ensures area.reachable == old(area.reachable)
      ensures (area.items == ReadPrompts(old(area.items), old(area.reachable)).1
               && r == FindById(ReadPrompts(old(area.items), old(area.reachable)).0, id))
    {
      var prompts := GetPrompts();
      r := FindById(prompts, id);
    }

    /**
     * getAllTags (storage.js:88-104): the trimmed tags of every record whose
     * `tags` is an array go into a Set, whose contents are sorted; a record
     * or tag that cannot be read yields [].
     */
    method GetAllTags() returns (r: seq<string>)
      modifies area
      ensures area.reachable == old(area.reachable)
      ensures (area.items == ReadPrompts(old(area.items), old(area.reachable)).1
               && r == AllTags(ReadPrompts(old(area.items), old(area.reachable)).0))
    {
      var prompts := GetPrompts();
      ghost var afterRead := area.items;
      var tags: seq<string> := [];
      var i := 0;
      while i < |prompts|
        invariant 0 <= i <= |prompts|
        invariant TagOrder(prompts[..i]) == Ok(tags)
        invariant area.items == afterRead && area.reachable == old(area.reachable)
      {
        var p := prompts[i];
        assert prompts[..i + 1] == prompts[..i] + [p];
        assert prompts[..i + 1][..i] == prompts[..i];
        if Nullish(p) {
          NoTagsAfterFailure(prompts, i);
          return [];
        }
        var field := Field(p, "tags");
        if field.Arr? {
          var added := AddTrimmed(tags, field.items);
          if added.Err? {
            NoTagsAfterFailure(prompts, i);
            return [];
          }
          tags := added.value;
        }
        i := i + 1;
      }
      assert prompts[..i] == prompts;
      return SortStrings(tags);
    }

    /**
     * The inner forEach of getAllTags: `tags.add(tag.trim())` for each tag in
     * turn; a non-string tag throws.
     */
    static method AddTrimmed(order: seq<string>, items: seq<Json>) returns (r: Result<seq<string>>)
      ensures r.Ok? <==> TrimTags(items).Ok?
      ensures r.Ok? ==> r.value == AddAll(order, TrimTags(items).value)
    {
      var seen: seq<string> := order;
      var j := 0;
      while j < |items|
        invariant 0 <= j <= |items|
        invariant TrimTags(items[..j]).Ok?
        invariant seen == AddAll(order, TrimTags(items[..j]).value)
      {
        assert items[..j + 1][..j] == items[..j];
        if !items[j].Str? {
          assert !TrimTags(items).Ok? by {
            assert !items[j].Str?;
          }
          return Err(TypeError);
        }
        var tag := Trim(items[j].s);
        assert TrimTags(items[..j + 1]).value == TrimTags(items[..j]).value + [tag];
        if tag !in seen {
          seen := seen + [tag];
        }
        j := j + 1;
      }
      assert items[..j] == items;
      return Ok(seen);
    }

    /**
     * exportPrompts (storage.js:106-119): the document it serialises;
     * `stamp` is the ISO time of the export.
     */
    method ExportPrompts(stamp: string) returns (r: Json)
      modifies area
      ensures area.reachable == old(area.reachable)
      ensures (area.items == ReadPrompts(old(area.items), old(area.reachable)).1
               && r == ExportDocument(ReadPrompts(old(area.items), old(area.reachable)).0, stamp))
    {
      var prompts := GetPrompts();
      r := ExportDocument(prompts, stamp);
    }

    /**
     * importPrompts (storage.js:121-175): the loop pushes each readable,
     * non-empty candidate whose lower-cased title is new, with the id
     * `mint(k)` for the k-th record it pushes, then writes the array back.
     */
    method ImportPrompts(doc: Document, mint: nat -> string) returns (r: Result<ImportSummary>)
      modifies area
      ensures area.reachable == old(area.reachable)
      ensures (r, area.items) == ImportOutcome(old(area.items), old(area.reachable), doc, mint)
    {
      var candidates :- Candidates(doc);
      var existingPrompts := GetPrompts();
      var existingTitles :- ExistingTitles(existingPrompts);
      var run := ImportLoop(candidates, existingPrompts, existingTitles, mint);
      if run.Err? {
        OutcomeOfFailedRun(old(area.items), old(area.reachable), doc, mint);
        return Err(TypeError);
      }
      var (prompts, imported) := run.value;
      ghost var afterRead := area.items;
      var ok := area.Set(map[PromptsKey := Arr(prompts)]);
      assert ok ==> area.items == afterRead[PromptsKey := Arr(prompts)];
      if !ok {
        OutcomeUnreachable(old(area.items), doc, mint);
        return Err(StoreUnavailable);
      }
      OutcomeOfRun(old(area.items), old(area.reachable), doc, mint, ImportRun(ImportState([], existingTitles), candidates, mint).value);
      return Ok(ImportSummary(imported, |candidates|));
    }

    /**
     * The for-of loop of importPrompts (storage.js:147-167): the array with
     * the accepted records pushed, and the count of them; a TypeError when
     * some candidate's label or template throws.
     */
    static method ImportLoop(candidates: seq<Json>, existingPrompts: seq<Json>, existingTitles: set<string>, mint: nat -> string)
      returns (r: Result<(seq<Json>, nat)>)
      ensures ImportRun(ImportState([], existingTitles), candidates, mint).Err? ==> r == Err(TypeError)
      ensures ImportRun(ImportState([], existingTitles), candidates, mint).Ok? ==>
                var fin := ImportRun(ImportState([], existingTitles), candidates, mint).value;
                r == Ok((existingPrompts + Records(fin.accepted), |fin.accepted|))
    {
      ghost var start := ImportState([], existingTitles);
      ghost var st := start;
      var titles := existingTitles;
      var prompts := existingPrompts;
      var imported := 0;
      var i := 0;
      while i < |candidates|
        invariant 0 <= i <= |candidates|
        invariant ImportRun(start, candidates, mint) == ImportRun(st, candidates[i..], mint)
        invariant prompts == existingPrompts + Records(st.accepted)
        invariant titles == st.titles && imported == |st.accepted|
      {
        var raw := candidates[i];
        var labelValue := Pick(raw, LabelKeys);
        var templateValue := Pick(raw, TemplateKeys);
        var tagValue := Pick(raw, TagKeys);
        var tags := ToTagsArray(tagValue);
        var cleanLabel := CleanText(labelValue);
        var cleanTemplate := CleanText(templateValue);
        if cleanLabel.Err? || cleanTemplate.Err? {
          RunStops(start, st, candidates, i, mint);
          return Err(TypeError);
        }
        StepOfReading(st, raw, mint, cleanLabel.value, cleanTemplate.value);
        ghost var next := st;
        if cleanLabel.value != [] && cleanTemplate.value != [] {
          var key := Lower(cleanLabel.value);
          if key !in titles {
            var rec := Prompt(Str(mint(imported)), cleanLabel.value, cleanTemplate.value, StrTags(tags));
            prompts := prompts + [AsJson(rec)];
            titles := titles + {key};
            imported := imported + 1;
            RecordsSnoc(st.accepted, rec);
            next := Push(st, rec);
          }
        }
        RunAdvances(start, st, candidates, i, mint, next);
        st := next;
        i := i + 1;
      }
      RunEnds(start, st, candidates, mint);
      return Ok((prompts, imported));
    }

    /** getSelectors (storage.js:177-185): the stored selectors when truthy, else the defaults. */
    method GetSelectors() returns (r: Json)
      ensures r == SelectorsFrom(area.items, area.reachable)
    {
      var got := area.Get(OneKey(SelectorsKey));
      if got.None? {
        return SelectorsJson(DefaultSelectors());
      }
      var stored := got.value[SelectorsKey];
      r := if Truthy(stored) then stored else SelectorsJson(DefaultSelectors());
    }

    /** saveSelectors (storage.js:199-206): writes the selectors; a store error is rethrown. */
    method SaveSelectors(selectors: Json) returns (r: Result<()>)
      modifies area
      ensures area.reachable == old(area.reachable)
      ensures r.Ok? <==> old(area.reachable)
      ensures r.Err? ==> r.error == StoreUnavailable && area.items == old(area.items)
      ensures r.Ok? ==> area.items == old(area.items)[SelectorsKey := selectors]
    {
      var ok := area.Set(map[SelectorsKey := selectors]);
      assert ok ==> area.items == old(area.items)[SelectorsKey := selectors];
      if !ok {
        return Err(StoreUnavailable);
      }
      return Ok(());
    }
  }

  /** When record `i` cannot be read, or one of its tags cannot be trimmed, getAllTags yields []. */
  lemma NoTagsAfterFailure(ps: seq<Json>, i: nat)
    requires i < |ps| && RecordTags(ps[i]).Err?
    ensures AllTags(ps) == []
  {
  }

  lemma RecordsSnoc(ps: seq<Prompt>, p: Prompt)
    ensures Records(ps + [p]) == Records(ps) + [AsJson(p)]
  {
  }

  /** Saved selectors are what getSelectors returns next, when they are truthy. */
  lemma SaveThenGetSelectors(items: map<string, Json>, selectors: Json)
    requires Truthy(selectors)
    ensures SelectorsFrom(items[SelectorsKey := selectors], true) == selectors
  {
  }

  // ---------------------------------------------------------------- the import loop, step by step

  /** The loop reaches candidate `i + 1` in the state the step on candidate `i` produces. */
  lemma RunAdvances(start: ImportState, st: ImportState, raws: seq<Json>, i: nat, mint: nat -> string, next: ImportState)
    requires i < |raws| && ImportRun(start, raws, mint) == ImportRun(st, raws[i..], mint)
    requires ImportStep(st, raws[i], mint) == Ok(next)
    ensures ImportRun(start, raws, mint) == ImportRun(next, raws[i + 1..], mint)
  {
    assert raws[i..][0] == raws[i] && raws[i..][1..] == raws[i + 1..];
    RunCons(st, raws[i..], mint);
  }

  /** A candidate whose label or template throws ends the whole loop with a TypeError. */
  lemma RunStops(start: ImportState, st: ImportState, raws: seq<Json>, i: nat, mint: nat -> string)
    requires i < |raws| && ImportRun(start, raws, mint) == ImportRun(st, raws[i..], mint)
    requires (CleanText(FirstPresent(raws[i], LabelKeys)).Err? || CleanText(FirstPresent(raws[i], TemplateKeys)).Err?)
    ensures ImportRun(start, raws, mint) == Err(TypeError)
  {
    assert raws[i..][0] == raws[i];
  }

  lemma RunEnds(start: ImportState, st: ImportState, raws: seq<Json>, mint: nat -> string)
    requires ImportRun(start, raws, mint) == ImportRun(st, raws[|raws|..], mint)
    ensures ImportRun(start, raws, mint) == Ok(st)
  {
    assert raws[|raws|..] == [];
  }

  /** One iteration on a candidate whose label and template read as `labelText` and `template`. */
  lemma StepOfReading(st: ImportState, raw: Json, mint: nat -> string, labelText: string, template: string)
    requires CleanText(FirstPresent(raw, LabelKeys)) == Ok(labelText)
    requires CleanText(FirstPresent(raw, TemplateKeys)) == Ok(template)
    ensures (labelText == [] || template == [] || Lower(labelText) in st.titles) ==> ImportStep(st, raw, mint) == Ok(st)
    ensures !(labelText == [] || template == [] || Lower(labelText) in st.titles) ==>
              ImportStep(st, raw, mint)
              == Ok(Push(st, Prompt(Str(mint(|st.accepted|)), labelText, template, StrTags(ToTagsArray(FirstPresent(raw, TagKeys))))))
  {
    assert ReadCandidate(raw) == Ok(Reading(labelText, template));
  }

  /** A loop that throws leaves the store as getPrompts left it. */
  lemma OutcomeOfFailedRun(items: map<string, Json>, reachable: bool, doc: Document, mint: nat -> string)
    requires Candidates(doc).Ok? && ExistingTitles(ReadPrompts(items, reachable).0).Ok?
    requires ImportRun(ImportState([], ExistingTitles(ReadPrompts(items, reachable).0).value), Candidates(doc).value, mint)
             == Err(TypeError)
    ensures ImportOutcome(items, reachable, doc, mint) == (Err(TypeError), ReadPrompts(items, reachable).1)
  {
  }

  /** With the store unreachable, a loop that completes ends in the failed write. */
  lemma OutcomeUnreachable(items: map<string, Json>, doc: Document, mint: nat -> string)
    requires Candidates(doc).Ok? && ImportRun(ImportState([], {}), Candidates(doc).value, mint).Ok?
    ensures ImportOutcome(items, false, doc, mint) == (Err(StoreUnavailable), items)
  {
    assert ReadPrompts(items, false) == ([], items);
    assert ExistingTitles([]) == Ok({});
  }
}
