/**
 * importPrompts (storage.js:121-175) as functions: the accepted document
 * shapes, the field aliases of `pick` and `toTagsArray`, the record-by-record
 * deduplication against existing and already-accepted labels, and the count
 * it reports.
 */
module PromptImport {
  import opened Results
  import opened Text
  import opened JsonValues
  import opened KeyValueStore
  import opened PromptRecords

  /** The outcome of JSON.parse on the imported text: a value, or a SyntaxError. */
  datatype Document = Parsed(value: Json) | Malformed

  /** The `{imported, total}` object importPrompts resolves with. */
  datatype ImportSummary = ImportSummary(imported: nat, total: nat)

  /** `v[key]` is an array (for a truthy `v`). */
  predicate HasArrayField(v: Json, key: string) {
    v.Obj? && key in v.fields && v.fields[key].Arr?
  }

  /**
   * The candidate array: the `prompts` array field, else the document itself
   * when it is an array, else the `data` array field; anything else is an
   * invalid format, and a text that does not parse is an invalid JSON file.
   */
  function Candidates(doc: Document): (r: Result<seq<Json>>)
    ensures doc.Malformed? <==> r == Err(InvalidJsonFile)
    ensures doc.Parsed? && HasArrayField(doc.value, "prompts") ==> r == Ok(doc.value.fields["prompts"].items)
    ensures doc.Parsed? && !HasArrayField(doc.value, "prompts") && doc.value.Arr? ==> r == Ok(doc.value.items)
    ensures (doc.Parsed? && !doc.value.Arr? && !HasArrayField(doc.value, "prompts") && HasArrayField(doc.value, "data"))
              ==> r == Ok(doc.value.fields["data"].items)
    ensures r == Err(InvalidFileFormat) <==>
              doc.Parsed? && !doc.value.Arr? && !HasArrayField(doc.value, "prompts") && !HasArrayField(doc.value, "data")
  {
    match doc
    case Malformed => Err(InvalidJsonFile)
    case Parsed(v) =>
      if HasArrayField(v, "prompts") then Ok(v.fields["prompts"].items)
      else if v.Arr? then Ok(v.items)
      else if HasArrayField(v, "data") then Ok(v.fields["data"].items)
      else Err(InvalidFileFormat)
  }

  /** The document exportPrompts writes is read back through its `prompts` field, the first shape tried. */
  lemma ExportIsShapeOne(ps: seq<Json>, stamp: string)
    ensures Candidates(Parsed(ExportDocument(ps, stamp))) == Ok(ps)
  {
    var doc := ExportDocument(ps, stamp);
    assert Prop(doc, "prompts") == Ok(Arr(ps));
  }

  // ---------------------------------------------------------------- pick and toTagsArray

  /** The aliases of each field, in the order `pick` tries them (storage.js:148-150). */
  const LabelKeys: seq<string> := ["label", "title", "name"]
  const TemplateKeys: seq<string> := ["template", "content", "text", "prompt"]
  const TagKeys: seq<string> := ["tags", "labels", "categories"]

  /** `obj` has `key` as an own property whose value is neither null nor undefined. */
  predicate Present(obj: Json, key: string) {
    obj.Obj? && key in obj.fields && !Nullish(obj.fields[key])
  }

  /** The value `pick(obj, keys)` returns. */
  function FirstPresent(obj: Json, keys: seq<string>): Json {
    if keys == [] then Undefined
    else if Present(obj, keys[0]) then obj.fields[keys[0]]
    else FirstPresent(obj, keys[1..])
  }

  /** `pick` returns undefined exactly when no key is present, and otherwise the value of the first present one. */
  lemma {:induction false} FirstPresentIsFirst(obj: Json, keys: seq<string>)
    ensures FirstPresent(obj, keys) == Undefined <==> forall i :: 0 <= i < |keys| ==> !Present(obj, keys[i])
    ensures FirstPresent(obj, keys) != Undefined ==>
              exists i :: 0 <= i < |keys| && Present(obj, keys[i]) && FirstPresent(obj, keys) == obj.fields[keys[i]]
                          && (forall j :: 0 <= j < i ==> !Present(obj, keys[j]))
  {
    if keys != [] && !Present(obj, keys[0]) {
      FirstPresentIsFirst(obj, keys[1..]);
      assert forall i :: 0 <= i < |keys| - 1 ==> keys[1..][i] == keys[i + 1];
    }
  }

  /** `pick` (storage.js:134-139): the value of the first present key, or undefined. */
  method Pick(obj: Json, keys: seq<string>) returns (r: Json)
    ensures r == FirstPresent(obj, keys)
  {
    for i := 0 to |keys|
      invariant FirstPresent(obj, keys) == FirstPresent(obj, keys[i..])
    {
      assert keys[i..][1..] == keys[i + 1..];
      if Present(obj, keys[i]) {
        return obj.fields[keys[i]];
      }
    }
    return Undefined;
  }

  function JsStrings(items: seq<Json>): (r: seq<string>)
    ensures |r| == |items| && forall i :: 0 <= i < |items| ==> r[i] == JsString(items[i])
  {
    seq(|items|, i requires 0 <= i < |items| => JsString(items[i]))
  }

  /** `toTagsArray` (storage.js:140-145). */
  function ToTagsArray(val: Json): seq<string> {
    if !Truthy(val) then []
    else if val.Arr? then DropEmpty(TrimEach(JsStrings(val.items)))
    else if val.Str? then CommaList(val.s)
    else []
  }

  /**
   * An array becomes the trimmed, non-empty String() forms of its elements, a
   * string its trimmed, non-empty comma-separated pieces, and anything else no
   * tags.
   */
  lemma ToTagsArrayShape(val: Json)
    ensures forall t :: t in ToTagsArray(val) ==> t != [] && IsTrimmed(t)
    ensures val.Str? ==> ToTagsArray(val) == CommaList(val.s)
    ensures val.Arr? ==> forall t :: t in ToTagsArray(val) <==>
              t != [] && exists i :: 0 <= i < |val.items| && t == Trim(JsString(val.items[i]))
    ensures !val.Arr? && !val.Str? ==> ToTagsArray(val) == []
  {
    if !Truthy(val) {
      assert val.Str? ==> TrimEach(Split(val.s, ',')) == [[]];
    } else if val.Arr? {
      var trimmed := TrimEach(JsStrings(val.items));
      forall t | t in trimmed ensures exists i :: 0 <= i < |val.items| && t == Trim(JsString(val.items[i])) {
        var i :| 0 <= i < |trimmed| && trimmed[i] == t;
        assert t == Trim(JsString(val.items[i]));
      }
      forall i | 0 <= i < |val.items| ensures Trim(JsString(val.items[i])) in trimmed {
        assert trimmed[i] == Trim(JsString(val.items[i]));
      }
      forall t | t in trimmed ensures IsTrimmed(t) {
        var i :| 0 <= i < |trimmed| && trimmed[i] == t;
      }
    }
  }

  // ---------------------------------------------------------------- the loop over the candidates

  /** What one iteration reads from a candidate: its cleaned label and template. */
  datatype Reading = Reading(labelText: string, template: string)

  /**
   * `pick` of label and template and `(v || '').trim()` of each
   * (storage.js:148-153); the trim throws on a truthy non-string value.
   */
  function ReadCandidate(raw: Json): (r: Result<Reading>)
    ensures r.Err? <==> CleanText(FirstPresent(raw, LabelKeys)).Err? || CleanText(FirstPresent(raw, TemplateKeys)).Err?
    ensures r.Err? ==> r.error == TypeError
    ensures r.Ok? ==> IsTrimmed(r.value.labelText) && IsTrimmed(r.value.template)
  {
    var labelText :- CleanText(FirstPresent(raw, LabelKeys));
    var template :- CleanText(FirstPresent(raw, TemplateKeys));
    Ok(Reading(labelText, template))
  }

  /** Reading the label or template of `raw` throws. */
  predicate StepFails(raw: Json) {
    ReadCandidate(raw).Err?
  }

  /** The case-insensitive title of `raw` when it can be read and has a non-empty label and template. */
  function KeyOf(raw: Json): Option<string> {
    match ReadCandidate(raw)
    case Err(_) => None
    case Ok(rd) => if rd.labelText == [] || rd.template == [] then None else Some(Lower(rd.labelText))
  }

  /**
   * The loop's variables: the records pushed so far and the lower-cased
   * titles seen so far (existing ones first). The count `imported` is the
   * number of records pushed.
   */
  datatype ImportState = ImportState(accepted: seq<Prompt>, titles: set<string>)

  /** `existingPrompts.push(rec)` and `existingTitles.add(key)`. */
  function Push(st: ImportState, rec: Prompt): ImportState {
    ImportState(st.accepted + [rec], st.titles + {Lower(rec.labelText)})
  }

  /** The record pushed for a candidate: the next fresh id, `mint(k)` for the k-th record of this import. */
  function NewRecord(st: ImportState, raw: Json, mint: nat -> string): Prompt
    requires !StepFails(raw)
  {
    var rd := ReadCandidate(raw).value;
    Prompt(Str(mint(|st.accepted|)), rd.labelText, rd.template, StrTags(ToTagsArray(FirstPresent(raw, TagKeys))))
  }

  /**
   * One iteration (storage.js:148-166): a record without a label or template,
   * or with a title already seen, is skipped; otherwise it is pushed.
   */
  function ImportStep(st: ImportState, raw: Json, mint: nat -> string): (r: Result<ImportState>)
    ensures r.Err? <==> StepFails(raw)
    ensures r.Err? ==> r.error == TypeError
  {
    match ReadCandidate(raw)
    case Err(e) => Err(e)
    case Ok(rd) =>
      if rd.labelText == [] || rd.template == [] || Lower(rd.labelText) in st.titles then Ok(st)
      else Ok(Push(st, NewRecord(st, raw, mint)))
  }

  /**
   * A candidate without a title, or with one already seen, leaves the state
   * as it is; any other is pushed under its title.
   */
  lemma ImportStepCases(st: ImportState, raw: Json, mint: nat -> string)
    requires !StepFails(raw)
    ensures KeyOf(raw).None? || KeyOf(raw).value in st.titles ==> ImportStep(st, raw, mint) == Ok(st)
    ensures KeyOf(raw).Some? && KeyOf(raw).value !in st.titles ==>
              && ImportStep(st, raw, mint) == Ok(Push(st, NewRecord(st, raw, mint)))
              && Lower(NewRecord(st, raw, mint).labelText) == KeyOf(raw).value
  {
  }

  /** The whole loop (storage.js:147-167): it stops at the first record whose label or template throws. */
  function ImportRun(st: ImportState, raws: seq<Json>, mint: nat -> string): (r: Result<ImportState>)
    ensures r.Err? ==> r.error == TypeError
    decreases |raws|
  {
    if raws == [] then Ok(st)
    else
      match ImportStep(st, raws[0], mint)
      case Err(e) => Err(e)
      case Ok(next) => ImportRun(next, raws[1..], mint)
  }

  /** The loop throws exactly when some candidate's label or template throws. */
  lemma {:induction false} ImportRunFails(st: ImportState, raws: seq<Json>, mint: nat -> string)
    ensures ImportRun(st, raws, mint).Err? <==> exists i :: 0 <= i < |raws| && StepFails(raws[i])
    decreases |raws|
  {
    if raws != [] && !StepFails(raws[0]) {
      ImportRunFails(ImportStep(st, raws[0], mint).value, raws[1..], mint);
      assert forall i :: 0 <= i < |raws| - 1 ==> raws[1..][i] == raws[i + 1];
    }
  }

  /** The lower-cased labels of the records. */
  function LabelKeysOf(ps: seq<Prompt>): set<string> {
    set i | 0 <= i < |ps| :: Lower(ps[i].labelText)
  }

  lemma LabelKeysOfPush(ps: seq<Prompt>, rec: Prompt)
    ensures LabelKeysOf(ps + [rec]) == LabelKeysOf(ps) + {Lower(rec.labelText)}
  {
    var qs := ps + [rec];
    forall t | t in LabelKeysOf(qs) ensures t in LabelKeysOf(ps) + {Lower(rec.labelText)} {
      var i :| 0 <= i < |qs| && t == Lower(qs[i].labelText);
      if i < |ps| {
        assert t == Lower(ps[i].labelText);
      }
    }
    forall t | t in LabelKeysOf(ps) ensures t in LabelKeysOf(qs) {
      var i :| 0 <= i < |ps| && t == Lower(ps[i].labelText);
      assert t == Lower(qs[i].labelText);
    }
    assert Lower(qs[|ps|].labelText) in LabelKeysOf(qs);
  }

  /** Label and template of a record are trimmed and non-empty. */
  predicate WellFormed(p: Prompt) {
    p.labelText != [] && IsTrimmed(p.labelText) && p.template != [] && IsTrimmed(p.template)
  }

  /**
   * What the loop keeps true against the titles `existing` it started with:
   * every accepted record is well formed, its title is new and differs from
   * every other accepted title, and the title set is exactly the existing
   * titles plus the accepted ones.
   */
  predicate Good(st: ImportState, existing: set<string>) {
    && (forall i :: 0 <= i < |st.accepted| ==> WellFormed(st.accepted[i]))
    && (forall i :: 0 <= i < |st.accepted| ==> Lower(st.accepted[i].labelText) !in existing)
    && (forall i, j :: 0 <= i < j < |st.accepted| ==> Lower(st.accepted[i].labelText) != Lower(st.accepted[j].labelText))
    && st.titles == existing + LabelKeysOf(st.accepted)
  }

  /** Pushing a well-formed record whose title is not yet in the set keeps `Good`. */
  lemma PushKeepsGood(st: ImportState, rec: Prompt, existing: set<string>)
    requires Good(st, existing) && WellFormed(rec) && Lower(rec.labelText) !in st.titles
    ensures Good(Push(st, rec), existing)
  {
    var n := |st.accepted|;
    var next := Push(st, rec);
    LabelKeysOfPush(st.accepted, rec);
    assert forall i :: 0 <= i < n ==> next.accepted[i] == st.accepted[i];
    assert next.accepted[n] == rec;
    forall i | 0 <= i < n ensures Lower(st.accepted[i].labelText) != Lower(rec.labelText) {
      assert Lower(st.accepted[i].labelText) in LabelKeysOf(st.accepted);
    }
  }

  /** The record an iteration pushes is well formed. */
  lemma NewRecordWellFormed(st: ImportState, raw: Json, mint: nat -> string)
    requires !StepFails(raw) && KeyOf(raw).Some?
    ensures WellFormed(NewRecord(st, raw, mint))
  {
  }

  /** The loop keeps `Good`. */
  lemma {:induction false} ImportRunKeepsGood(st: ImportState, raws: seq<Json>, mint: nat -> string, existing: set<string>)
    requires Good(st, existing) && ImportRun(st, raws, mint).Ok?
    ensures Good(ImportRun(st, raws, mint).value, existing)
    decreases |raws|
  {
    if raws != [] {
      var next := ImportStep(st, raws[0], mint).value;
      if next != st {
        NewRecordWellFormed(st, raws[0], mint);
        PushKeepsGood(st, NewRecord(st, raws[0], mint), existing);
      }
      ImportRunKeepsGood(next, raws[1..], mint, existing);
    }
  }

  /**
   * The loop keeps the records accepted so far as a prefix, accepts at most
   * one record per candidate and only adds titles.
   */
  lemma {:induction false} ImportRunExtends(st: ImportState, raws: seq<Json>, mint: nat -> string)
    requires ImportRun(st, raws, mint).Ok?
    ensures |st.accepted| <= |ImportRun(st, raws, mint).value.accepted| <= |st.accepted| + |raws|
    ensures ImportRun(st, raws, mint).value.accepted[..|st.accepted|] == st.accepted
    ensures st.titles <= ImportRun(st, raws, mint).value.titles
    decreases |raws|
  {
    if raws != [] {
      var next := ImportStep(st, raws[0], mint).value;
      assert next.accepted[..|st.accepted|] == st.accepted && |next.accepted| <= |st.accepted| + 1;
      ImportRunExtends(next, raws[1..], mint);
      var fin := ImportRun(next, raws[1..], mint).value;
      assert ImportRun(st, raws, mint).value == fin;
      assert fin.accepted[..|st.accepted|] == fin.accepted[..|next.accepted|][..|st.accepted|];
    }
  }

  /** The title of every importable candidate of `raws` is in `titles`. */
  predicate KeysKnown(raws: seq<Json>, titles: set<string>) {
    forall i :: 0 <= i < |raws| ==> KeyOf(raws[i]).None? || KeyOf(raws[i]).value in titles
  }

  /** The loop ends with the title of every importable candidate in its title set. */
  lemma {:induction false} ImportRunCoversKeys(st: ImportState, raws: seq<Json>, mint: nat -> string)
    requires ImportRun(st, raws, mint).Ok?
    ensures KeysKnown(raws, ImportRun(st, raws, mint).value.titles)
    decreases |raws|
  {
    if raws != [] {
      assert ImportStep(st, raws[0], mint).Ok?;
      var next := ImportStep(st, raws[0], mint).value;
      RunCons(st, raws, mint);
      ImportStepCases(st, raws[0], mint);
      ImportRunCoversKeys(next, raws[1..], mint);
      ImportRunExtends(next, raws[1..], mint);
      KeysKnownCons(raws, ImportRun(next, raws[1..], mint).value.titles);
    }
  }

  lemma KeysKnownCons(raws: seq<Json>, titles: set<string>)
    requires raws != [] && (KeyOf(raws[0]).None? || KeyOf(raws[0]).value in titles)
    requires KeysKnown(raws[1..], titles)
    ensures KeysKnown(raws, titles)
  {
    AllCons(raws, raw => KeyOf(raw).None? || KeyOf(raw).value in titles);
  }

  lemma AllCons<T>(xs: seq<T>, f: T -> bool)
    requires xs != [] && f(xs[0])
    requires forall i :: 0 <= i < |xs| - 1 ==> f(xs[1..][i])
    ensures forall i :: 0 <= i < |xs| ==> f(xs[i])
  {
    forall i | 0 < i < |xs| ensures f(xs[i]) {
      assert xs[i] == xs[1..][i - 1];
    }
  }

  /** When every importable candidate's title is already known, the loop accepts nothing. */
  lemma {:induction false} ImportRunKnownTitles(st: ImportState, raws: seq<Json>, mint: nat -> string)
    requires forall i :: 0 <= i < |raws| ==> !StepFails(raws[i])
    requires KeysKnown(raws, st.titles)
    ensures ImportRun(st, raws, mint) == Ok(st)
    decreases |raws|
  {
    if raws != [] {
      assert ImportStep(st, raws[0], mint) == Ok(st);
      assert forall i :: 0 <= i < |raws| - 1 ==> raws[1..][i] == raws[i + 1];
      ImportRunKnownTitles(st, raws[1..], mint);
    }
  }

  // ---------------------------------------------------------------- against the store

  /** `(p.label || '').toLowerCase().trim()` for one existing record (storage.js:131). */
  function TitleOf(p: Json): (r: Result<string>)
    ensures r.Err? <==> Nullish(p) || (Truthy(Field(p, "label")) && !Field(p, "label").Str?)
    ensures r.Ok? && Field(p, "label").Str? ==> r.value == Trim(Lower(Field(p, "label").s))
    ensures r.Ok? && !Field(p, "label").Str? ==> r.value == []
  {
    if Nullish(p) then Err(TypeError)
    else
      var v := Field(p, "label");
      if !Truthy(v) then Ok([])
      else if v.Str? then Ok(Trim(Lower(v.s)))
      else Err(TypeError)
  }

  /** The `existingTitles` Set: a TypeError when some record's title cannot be computed. */
  function ExistingTitles(ps: seq<Json>): (r: Result<set<string>>)
    ensures r.Ok? <==> forall i :: 0 <= i < |ps| ==> TitleOf(ps[i]).Ok?
  {
    if ps == [] then Ok({})
    else
      assert forall i :: 0 <= i < |ps| - 1 ==> ps[1..][i] == ps[i + 1];
      match TitleOf(ps[0])
      case Err(e) => Err(e)
      case Ok(t) =>
        match ExistingTitles(ps[1..])
        case Err(e) => Err(e)
        case Ok(ts) => Ok({t} + ts)
  }

  /** The Set holds exactly the titles of the existing records. */
  lemma {:induction false} ExistingTitlesMembers(ps: seq<Json>)
    requires ExistingTitles(ps).Ok?
    ensures forall t :: t in ExistingTitles(ps).value <==> exists i :: 0 <= i < |ps| && TitleOf(ps[i]) == Ok(t)
  {
    if ps != [] {
      ExistingTitlesMembers(ps[1..]);
      forall t ensures t in ExistingTitles(ps).value <==> exists i :: 0 <= i < |ps| && TitleOf(ps[i]) == Ok(t) {
        if t in ExistingTitles(ps[1..]).value {
          var i :| 0 <= i < |ps| - 1 && TitleOf(ps[1..][i]) == Ok(t);
          assert TitleOf(ps[i + 1]) == Ok(t);
        }
        if exists i :: 0 <= i < |ps| && TitleOf(ps[i]) == Ok(t) {
          var i :| 0 <= i < |ps| && TitleOf(ps[i]) == Ok(t);
          if i > 0 {
            assert TitleOf(ps[1..][i - 1]) == Ok(t);
          }
        }
      }
    }
  }

  /** The title of a record built by the import is its lower-cased label. */
  lemma TitleOfImported(p: Prompt)
    requires WellFormed(p)
    ensures TitleOf(AsJson(p)) == Ok(Lower(p.labelText))
  {
    assert Field(AsJson(p), "label") == Str(p.labelText);
    LowerTrimCommute(p.labelText);
  }

  lemma {:induction false} ExistingTitlesOfImported(recs: seq<Prompt>)
    requires forall i :: 0 <= i < |recs| ==> WellFormed(recs[i])
    ensures ExistingTitles(Records(recs)) == Ok(LabelKeysOf(recs))
  {
    if recs == [] {
      assert Records(recs) == [];
      assert LabelKeysOf(recs) == {};
    } else {
      RecordsTail(recs);
      assert forall i :: 0 <= i < |recs| - 1 ==> recs[1..][i] == recs[i + 1];
      ExistingTitlesOfImported(recs[1..]);
      TitleOfImported(recs[0]);
      LabelKeysOfCons(recs);
    }
  }

  lemma RecordsTail(ps: seq<Prompt>)
    requires ps != []
    ensures Records(ps)[1..] == Records(ps[1..])
  {
  }

  lemma {:induction false} ExistingTitlesAppend(ps: seq<Json>, recs: seq<Prompt>)
    requires ExistingTitles(ps).Ok?
    requires forall i :: 0 <= i < |recs| ==> WellFormed(recs[i])
    ensures ExistingTitles(ps + Records(recs)) == Ok(ExistingTitles(ps).value + LabelKeysOf(recs))
  {
    var keys := LabelKeysOf(recs);
    if ps == [] {
      assert ps + Records(recs) == Records(recs);
      ExistingTitlesOfImported(recs);
      assert {} + keys == keys;
    } else {
      var all := ps + Records(recs);
      assert all[1..] == ps[1..] + Records(recs) && all[0] == ps[0];
      ExistingTitlesAppend(ps[1..], recs);
      var t0 := TitleOf(ps[0]).value;
      var a := ExistingTitles(ps[1..]).value;
      assert ExistingTitles(ps) == Ok({t0} + a);
      assert ExistingTitles(all) == Ok({t0} + (a + keys));
      assert {t0} + (a + keys) == ({t0} + a) + keys;
    }
  }

  /**
   * importPrompts against a store: the summary it resolves with, or what it
   * rejects with, and the store it leaves. The shape is checked before the
   * store is read; the records are written in one `set` after the loop.
   */
  function ImportOutcome(items: map<string, Json>, reachable: bool, doc: Document, mint: nat -> string)
    : (r: (Result<ImportSummary>, map<string, Json>))
    ensures Candidates(doc).Err? ==> r == (Err(Candidates(doc).error), items)
    ensures r.0.Ok? ==> reachable && r.0.value.imported <= r.0.value.total == |Candidates(doc).value|
    ensures forall k :: k != PromptsKey ==> Lookup(r.1, k) == Lookup(items, k)
  {
    match Candidates(doc)
    case Err(e) => (Err(e), items)
    case Ok(raws) =>
      var (ps, afterRead) := ReadPrompts(items, reachable);
      match ExistingTitles(ps)
      case Err(e) => (Err(e), afterRead)
      case Ok(titles) =>
        match ImportRun(ImportState([], titles), raws, mint)
        case Err(e) => (Err(e), afterRead)
        case Ok(fin) =>
          if !reachable then (Err(StoreUnavailable), afterRead)
          else
            ImportRunExtends(ImportState([], titles), raws, mint);
            (Ok(ImportSummary(|fin.accepted|, |raws|)), afterRead[PromptsKey := Arr(ps + Records(fin.accepted))])
  }

  /**
   * A successful import keeps the existing records as a prefix, and the
   * records it adds are well formed, carry new titles and differ pairwise in
   * title, case-insensitively.
   */
  lemma ImportAddsNewTitles(items: map<string, Json>, reachable: bool, doc: Document, mint: nat -> string)
    requires ImportOutcome(items, reachable, doc, mint).0.Ok?
    ensures var ps := ReadPrompts(items, reachable).0;
            var stored := Lookup(ImportOutcome(items, reachable, doc, mint).1, PromptsKey);
            && ExistingTitles(ps).Ok?
            && exists added: seq<Prompt> ::
                 && stored == Arr(ps + Records(added))
                 && |added| == ImportOutcome(items, reachable, doc, mint).0.value.imported
                 && Good(ImportState(added, ExistingTitles(ps).value + LabelKeysOf(added)), ExistingTitles(ps).value)
  {
    var raws := Candidates(doc).value;
    var ps := ReadPrompts(items, reachable).0;
    var titles := ExistingTitles(ps).value;
    var fin := ImportRun(ImportState([], titles), raws, mint).value;
    ImportRunKeepsGood(ImportState([], titles), raws, mint, titles);
  }

  /** Importing the same document a second time imports nothing and keeps the collection. */
  lemma ImportTwiceImportsNothing(items: map<string, Json>, doc: Document, mint: nat -> string, mint2: nat -> string)
    requires ImportOutcome(items, true, doc, mint).0.Ok?
    ensures var once := ImportOutcome(items, true, doc, mint);
            var twice := ImportOutcome(once.1, true, doc, mint2);
            twice == (Ok(ImportSummary(0, once.0.value.total)), once.1)
  {
    var raws := Candidates(doc).value;
    var (ps, afterRead) := ReadPrompts(items, true);
    var titles := ExistingTitles(ps).value;
    var fin := ImportRun(ImportState([], titles), raws, mint).value;
    var stored := ps + Records(fin.accepted);
    OutcomeOfRun(items, true, doc, mint, fin);
    var once := afterRead[PromptsKey := Arr(stored)];
    assert ReadPrompts(once, true) == (stored, once);
    TitlesAfterImport(ps, raws, mint);
    SecondRunIsIdle(titles, raws, mint, mint2);
    OutcomeOfRun(once, true, doc, mint2, ImportState([], fin.titles));
    assert Records([]) == [];
    ThenEmpty(stored);
    UpdateSame(once, PromptsKey, Arr(stored));
  }

  lemma UpdateSame<K, V>(m: map<K, V>, k: K, v: V)
    requires k in m && m[k] == v
    ensures m[k := v] == m
  {
  }

  /** After a successful run, the titles of the stored collection are exactly the run's title set. */
  lemma TitlesAfterImport(ps: seq<Json>, raws: seq<Json>, mint: nat -> string)
    requires ExistingTitles(ps).Ok? && ImportRun(ImportState([], ExistingTitles(ps).value), raws, mint).Ok?
    ensures var fin := ImportRun(ImportState([], ExistingTitles(ps).value), raws, mint).value;
            ExistingTitles(ps + Records(fin.accepted)) == Ok(fin.titles)
  {
    var titles := ExistingTitles(ps).value;
    assert LabelKeysOf([]) == {};
    ImportRunKeepsGood(ImportState([], titles), raws, mint, titles);
    ExistingTitlesAppend(ps, ImportRun(ImportState([], titles), raws, mint).value.accepted);
  }

  /** Running the same candidates again, from the titles the first run ended with, accepts nothing. */
  lemma SecondRunIsIdle(titles: set<string>, raws: seq<Json>, mint: nat -> string, mint2: nat -> string)
    requires ImportRun(ImportState([], titles), raws, mint).Ok?
    ensures var fin := ImportRun(ImportState([], titles), raws, mint).value;
            ImportRun(ImportState([], fin.titles), raws, mint2) == Ok(ImportState([], fin.titles))
  {
    var fin := ImportRun(ImportState([], titles), raws, mint).value;
    ImportRunFails(ImportState([], titles), raws, mint);
    ImportRunCoversKeys(ImportState([], titles), raws, mint);
    ImportRunKnownTitles(ImportState([], fin.titles), raws, mint2);
  }

  // ---------------------------------------------------------------- export, then import

  /** A record whose tags are trimmed, non-empty strings; the shape the popup's form saves. */
  predicate Exportable(p: Prompt) {
    WellFormed(p) && forall i :: 0 <= i < |p.tags| ==> p.tags[i].Str? && p.tags[i].s != [] && IsTrimmed(p.tags[i].s)
  }

  /** The records with the ids the import gives them: `mint(start + i)` for the i-th. */
  function Reissued(ps: seq<Prompt>, start: nat, mint: nat -> string): (r: seq<Prompt>)
    ensures |r| == |ps|
  {
    if ps == [] then [] else [ps[0].(id := Str(mint(start)))] + Reissued(ps[1..], start + 1, mint)
  }

  /** Record `i` keeps its label, template and tags, and gets the id `mint(start + i)`. */
  lemma {:induction false} ReissuedAt(ps: seq<Prompt>, start: nat, mint: nat -> string, i: int)
    requires 0 <= i < |ps|
    ensures Reissued(ps, start, mint)[i] == ps[i].(id := Str(mint(start + i)))
  {
    if i > 0 {
      ReissuedAt(ps[1..], start + 1, mint, i - 1);
    }
  }

  /** The tags of an exported record come back unchanged through toTagsArray. */
  lemma TagsRoundTrip(p: Prompt)
    requires Exportable(p)
    ensures StrTags(ToTagsArray(FirstPresent(AsJson(p), TagKeys))) == p.tags
  {
    var tags := p.tags;
    assert Present(AsJson(p), "tags");
    assert FirstPresent(AsJson(p), TagKeys) == Arr(tags);
    var strs := JsStrings(tags);
    assert TrimEach(strs) == strs;
    DropEmptyKeepsFull(strs);
  }

  /** One exported record is imported with the same label, template and tags under a fresh id. */
  lemma StepOfExported(st: ImportState, p: Prompt, mint: nat -> string)
    requires Exportable(p) && Lower(p.labelText) !in st.titles
    ensures ImportStep(st, AsJson(p), mint)
            == Ok(ImportState(st.accepted + [p.(id := Str(mint(|st.accepted|)))], st.titles + {Lower(p.labelText)}))
  {
    var raw := AsJson(p);
    assert Present(raw, "label") && Present(raw, "template");
    assert FirstPresent(raw, LabelKeys) == Str(p.labelText);
    assert FirstPresent(raw, TemplateKeys) == Str(p.template);
    assert ReadCandidate(raw) == Ok(Reading(p.labelText, p.template));
    TagsRoundTrip(p);
    assert NewRecord(st, raw, mint) == p.(id := Str(mint(|st.accepted|)));
  }

  lemma LabelKeysOfCons(ps: seq<Prompt>)
    requires ps != []
    ensures LabelKeysOf(ps) == {Lower(ps[0].labelText)} + LabelKeysOf(ps[1..])
  {
    forall t | t in LabelKeysOf(ps) ensures t in {Lower(ps[0].labelText)} + LabelKeysOf(ps[1..]) {
      var i :| 0 <= i < |ps| && t == Lower(ps[i].labelText);
      if i > 0 {
        assert t == Lower(ps[1..][i - 1].labelText);
      }
    }
    forall t | t in LabelKeysOf(ps[1..]) ensures t in LabelKeysOf(ps) {
      var i :| 0 <= i < |ps| - 1 && t == Lower(ps[1..][i].labelText);
      assert t == Lower(ps[i + 1].labelText);
    }
    assert Lower(ps[0].labelText) in LabelKeysOf(ps);
  }

  lemma ReissuedCons(ps: seq<Prompt>, n: nat, mint: nat -> string)
    requires ps != []
    ensures Reissued(ps, n, mint) == [ps[0].(id := Str(mint(n)))] + Reissued(ps[1..], n + 1, mint)
  {
  }

  /** The state after the first exported record, followed by the rest, is the state after all of them. */
  lemma ExportedStateCons(st: ImportState, ps: seq<Prompt>, mint: nat -> string)
    requires ps != []
    ensures var next := ImportState(st.accepted + [ps[0].(id := Str(mint(|st.accepted|)))], st.titles + {Lower(ps[0].labelText)});
            ImportState(next.accepted + Reissued(ps[1..], |next.accepted|, mint), next.titles + LabelKeysOf(ps[1..]))
            == ImportState(st.accepted + Reissued(ps, |st.accepted|, mint), st.titles + LabelKeysOf(ps))
  {
    var n := |st.accepted|;
    var head := ps[0].(id := Str(mint(n)));
    var rest := Reissued(ps[1..], n + 1, mint);
    var key := Lower(ps[0].labelText);
    var keys := LabelKeysOf(ps[1..]);
    ReissuedCons(ps, n, mint);
    LabelKeysOfCons(ps);
    SnocThenAppend(st.accepted, head, rest);
    AddThenUnion(st.titles, key, keys);
  }

  lemma SnocThenAppend<T>(a: seq<T>, x: T, rest: seq<T>)
    ensures (a + [x]) + rest == a + ([x] + rest)
  {
  }

  lemma AddThenUnion<T>(a: set<T>, x: T, rest: set<T>)
    ensures (a + {x}) + rest == a + ({x} + rest)
  {
  }

  lemma RunCons(st: ImportState, raws: seq<Json>, mint: nat -> string)
    requires raws != [] && ImportStep(st, raws[0], mint).Ok?
    ensures ImportRun(st, raws, mint) == ImportRun(ImportStep(st, raws[0], mint).value, raws[1..], mint)
  {
  }

  lemma RecordsCons(ps: seq<Prompt>)
    requires ps != []
    ensures Records(ps) == [AsJson(ps[0])] + Records(ps[1..])
  {
  }

  /** Importing a list of exported records starts by taking in its first record. */
  lemma RunOfExportedHead(st: ImportState, ps: seq<Prompt>, mint: nat -> string)
    requires ps != [] && Exportable(ps[0]) && Lower(ps[0].labelText) !in st.titles
    ensures ImportRun(st, Records(ps), mint)
            == ImportRun(ImportState(st.accepted + [ps[0].(id := Str(mint(|st.accepted|)))], st.titles + {Lower(ps[0].labelText)}),
                         Records(ps[1..]), mint)
  {
    RecordsCons(ps);
    StepOfExported(st, ps[0], mint);
    RunCons(st, Records(ps), mint);
  }

  lemma {:induction false} RunOfExported(st: ImportState, ps: seq<Prompt>, mint: nat -> string)
    requires forall i :: 0 <= i < |ps| ==> Exportable(ps[i]) && Lower(ps[i].labelText) !in st.titles
    requires forall i, j :: 0 <= i < j < |ps| ==> Lower(ps[i].labelText) != Lower(ps[j].labelText)
    ensures ImportRun(st, Records(ps), mint)
            == Ok(ImportState(st.accepted + Reissued(ps, |st.accepted|, mint), st.titles + LabelKeysOf(ps)))
    decreases |ps|
  {
    if ps == [] {
      assert Records(ps) == [];
      assert LabelKeysOf(ps) == {};
      assert st.accepted + [] == st.accepted && st.titles + {} == st.titles;
    } else {
      var next := ImportState(st.accepted + [ps[0].(id := Str(mint(|st.accepted|)))], st.titles + {Lower(ps[0].labelText)});
      RunOfExportedHead(st, ps, mint);
      forall i | 0 <= i < |ps| - 1 ensures Exportable(ps[1..][i]) && Lower(ps[1..][i].labelText) !in next.titles {
        assert ps[1..][i] == ps[i + 1];
      }
      RunOfExported(next, ps[1..], mint);
      ExportedStateCons(st, ps, mint);
    }
  }

  /**
   * Exporting records with distinct titles and importing the document into an
   * empty store brings back every record, in order, with the same label,
   * template and tags and fresh ids.
   */
  lemma ExportImportRoundTrip(ps: seq<Prompt>, stamp: string, mint: nat -> string)
    requires forall i :: 0 <= i < |ps| ==> Exportable(ps[i])
    requires forall i, j :: 0 <= i < j < |ps| ==> Lower(ps[i].labelText) != Lower(ps[j].labelText)
    ensures ImportOutcome(map[], true, Parsed(ExportDocument(Records(ps), stamp)), mint)
            == (Ok(ImportSummary(|ps|, |ps|)), map[PromptsKey := Arr(Records(Reissued(ps, 0, mint)))])
  {
    var back := Reissued(ps, 0, mint);
    var doc := Parsed(ExportDocument(Records(ps), stamp));
    ExportIsShapeOne(Records(ps), stamp);
    assert ReadPrompts(map[], true) == ([], map[]);
    assert ExistingTitles([]) == Ok({});
    RunOfExportedFromEmpty(ps, mint);
    OutcomeOfRun(map[], true, doc, mint, ImportState(back, LabelKeysOf(ps)));
    EmptyThenAppend(Records(back));
  }

  lemma RunOfExportedFromEmpty(ps: seq<Prompt>, mint: nat -> string)
    requires forall i :: 0 <= i < |ps| ==> Exportable(ps[i])
    requires forall i, j :: 0 <= i < j < |ps| ==> Lower(ps[i].labelText) != Lower(ps[j].labelText)
    ensures ImportRun(ImportState([], {}), Records(ps), mint) == Ok(ImportState(Reissued(ps, 0, mint), LabelKeysOf(ps)))
  {
    RunOfExported(ImportState([], {}), ps, mint);
    EmptyThenAppend(Reissued(ps, 0, mint));
    EmptyThenUnion(LabelKeysOf(ps));
  }

  lemma EmptyThenAppend<T>(a: seq<T>)
    ensures [] + a == a
  {
  }

  lemma ThenEmpty<T>(a: seq<T>)
    ensures a + [] == a
  {
  }

  lemma EmptyThenUnion<T>(a: set<T>)
    ensures {} + a == a
  {
  }

  /** When every stage succeeds on a reachable store, the outcome is the run's accepted records appended. */
  lemma OutcomeOfRun(items: map<string, Json>, reachable: bool, doc: Document, mint: nat -> string, fin: ImportState)
    requires reachable && Candidates(doc).Ok? && ExistingTitles(ReadPrompts(items, reachable).0).Ok?
    requires ImportRun(ImportState([], ExistingTitles(ReadPrompts(items, reachable).0).value), Candidates(doc).value, mint) == Ok(fin)
    ensures ImportOutcome(items, reachable, doc, mint)
            == (Ok(ImportSummary(|fin.accepted|, |Candidates(doc).value|)),
                ReadPrompts(items, reachable).1[PromptsKey := Arr(ReadPrompts(items, reachable).0 + Records(fin.accepted))])
  {
  }
}
