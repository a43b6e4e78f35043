/**
 * The prompt collection of storage.js as functions over the stored value:
 * reading (and healing) what is stored under `prompts`, the record savePrompt
 * builds and where it puts it, removal and lookup by id, the tag list, the
 * export document and the host selectors.
 */
module PromptRecords {
  import opened Results
  import opened Text
  import opened JsonValues
  import opened Sequences
  import opened KeyValueStore

  /** The store key of the collection (storage.js:3). */
  const PromptsKey: string := "prompts"
  /** The store key of the host selectors (storage.js:4). */
  const SelectorsKey: string := "selectors"

  /** A record as savePrompt and importPrompts build it (storage.js:46-51, 159-164); `labelText` is its `label`. */
  datatype Prompt = Prompt(id: Json, labelText: string, template: string, tags: seq<Json>)

  function AsJson(p: Prompt): Json {
    Obj(map["id" := p.id, "label" := Str(p.labelText), "template" := Str(p.template), "tags" := Arr(p.tags)])
  }

  function Records(ps: seq<Prompt>): (r: seq<Json>)
    ensures |r| == |ps| && forall i :: 0 <= i < |ps| ==> r[i] == AsJson(ps[i])
  {
    seq(|ps|, i requires 0 <= i < |ps| => AsJson(ps[i]))
  }

  function StrTags(ts: seq<string>): (r: seq<Json>)
    ensures |r| == |ts| && forall i :: 0 <= i < |ts| ==> r[i] == Str(ts[i])
  {
    seq(|ts|, i requires 0 <= i < |ts| => Str(ts[i]))
  }

  /** `obj.key` for a value that is not null or undefined. */
  function Field(obj: Json, key: string): Json {
    if obj.Obj? && key in obj.fields then obj.fields[key] else Undefined
  }

  // ---------------------------------------------------------------- reading

  /** What getPrompts returns for a stored value, and what it writes back in its place. */
  datatype Healing = Healing(prompts: seq<Json>, rewrite: Option<seq<Json>>)

  /** The legacy shape `{prompts: [...]}`. */
  predicate IsWrapper(raw: Json) {
    raw.Obj? && "prompts" in raw.fields && raw.fields["prompts"].Arr?
  }

  function Heal(raw: Json): (h: Healing)
    ensures h.rewrite.Some? ==> h.rewrite.value == h.prompts
  {
    if raw.Arr? then Healing(raw.items, None)
    else if IsWrapper(raw) then Healing(raw.fields["prompts"].items, Some(raw.fields["prompts"].items))
    else if raw != Undefined then Healing([], Some([]))
    else Healing([], None)
  }

  /** getPrompts against a store: the collection it returns and the store it leaves. */
  function ReadPrompts(items: map<string, Json>, reachable: bool): (r: (seq<Json>, map<string, Json>))
    ensures !reachable ==> r == ([], items)
    ensures reachable && Lookup(items, PromptsKey).Arr? ==> r == (Lookup(items, PromptsKey).items, items)
    ensures reachable && IsWrapper(Lookup(items, PromptsKey)) ==>
      r.0 == Lookup(items, PromptsKey).fields["prompts"].items && r.1 == items[PromptsKey := Arr(r.0)]
    ensures (reachable && Lookup(items, PromptsKey) != Undefined && !Lookup(items, PromptsKey).Arr?
             && !IsWrapper(Lookup(items, PromptsKey))) ==> r == ([], items[PromptsKey := Arr([])])
    ensures reachable && Lookup(items, PromptsKey) == Undefined ==> r == ([], items)
    ensures forall k :: k != PromptsKey ==> Lookup(r.1, k) == Lookup(items, k)
  {
    if !reachable then ([], items)
    else
      var h := Heal(Lookup(items, PromptsKey));
      (h.prompts, if h.rewrite.Some? then items[PromptsKey := Arr(h.rewrite.value)] else items)
  }

  /** The healing is done in one read: a second read returns the same collection and writes nothing. */
  lemma ReadIsStable(items: map<string, Json>, reachable: bool)
    ensures ReadPrompts(ReadPrompts(items, reachable).1, reachable) == ReadPrompts(items, reachable)
  {
  }

  // ---------------------------------------------------------------- saving

  /** `(v || '').trim()`: a TypeError when `v` is a truthy non-string. */
  function CleanText(v: Json): (r: Result<string>)
    ensures r.Err? <==> Truthy(v) && !v.Str?
    ensures r.Err? ==> r.error == TypeError
    ensures r.Ok? ==> IsTrimmed(r.value)
    ensures v.Str? ==> r == Ok(Trim(v.s))
    ensures r.Ok? && !v.Str? ==> r.value == []
  {
    if !Truthy(v) then Ok([]) else if v.Str? then Ok(Trim(v.s)) else Err(TypeError)
  }

  /** The tags savePrompt stores: an array as it is, a string as its comma-separated pieces, otherwise none. */
  function SaveTags(v: Json): (r: seq<Json>)
    ensures v.Arr? ==> r == v.items
    ensures v.Str? ==> r == StrTags(CommaList(v.s))
    ensures !v.Arr? && !v.Str? ==> r == []
  {
    if v.Arr? then v.items else if v.Str? then StrTags(CommaList(v.s)) else []
  }

  /** The normalised record savePrompt builds from its argument; `freshId` stands for generateId(). */
  function Normalize(prompt: Json, freshId: string): (r: Result<Prompt>)
    ensures Nullish(prompt) ==> r == Err(TypeError)
    ensures !Nullish(prompt) ==>
      (r.Ok? <==> CleanText(Field(prompt, "label")).Ok? && CleanText(Field(prompt, "template")).Ok?)
    ensures r.Ok? ==> r.value.labelText == CleanText(Field(prompt, "label")).value
    ensures r.Ok? ==> r.value.template == CleanText(Field(prompt, "template")).value
    ensures r.Ok? ==> r.value.tags == SaveTags(Field(prompt, "tags"))
    ensures r.Ok? ==> r.value.id == if Truthy(Field(prompt, "id")) then Field(prompt, "id") else Str(freshId)
  {
    if Nullish(prompt) then Err(TypeError)
    else
      var labelText :- CleanText(Field(prompt, "label"));
      var template :- CleanText(Field(prompt, "template"));
      var id := Field(prompt, "id");
      Ok(Prompt(if Truthy(id) then id else Str(freshId), labelText, template, SaveTags(Field(prompt, "tags"))))
  }

  /** `p.id === id`, for a record whose `id` can be read. */
  predicate HasId(p: Json, id: Json) {
    !Nullish(p) && StrictEquals(Field(p, "id"), id)
  }

  /** `ps.findIndex(p => p.id === id)`: reading the id of a null or undefined record before a match throws. */
  function FindIndexById(ps: seq<Json>, id: Json): (r: Result<int>)
    ensures r.Ok? ==> -1 <= r.value < |ps|
    ensures r.Ok? && r.value >= 0 ==> HasId(ps[r.value], id)
    ensures r.Ok? ==> forall j :: 0 <= j < |ps| && (r.value < 0 || j < r.value) ==>
      !Nullish(ps[j]) && !HasId(ps[j], id)
    ensures r.Err? ==> r.error == TypeError
    ensures r.Err? ==> exists j :: 0 <= j < |ps| && Nullish(ps[j]) && (forall k :: 0 <= k < j ==> !HasId(ps[k], id))
  {
    if ps == [] then Ok(-1)
    else if Nullish(ps[0]) then Err(TypeError)
    else if HasId(ps[0], id) then Ok(0)
    else
      match FindIndexById(ps[1..], id)
      case Ok(k) => Ok(if k < 0 then -1 else k + 1)
      case Err(e) =>
        ghost var j :| 0 <= j < |ps| - 1 && Nullish(ps[1..][j]) && forall k :: 0 <= k < j ==> !HasId(ps[1..][k], id);
        assert Nullish(ps[j + 1]) && forall k :: 0 <= k < j + 1 ==> !HasId(ps[k], id);
        Err(e)
  }

  /** The search stops at the first record that is null or undefined or carries the id. */
  lemma {:induction false} FindIndexStops(ps: seq<Json>, id: Json, i: nat)
    requires i < |ps| && forall j :: 0 <= j < i ==> !Nullish(ps[j]) && !HasId(ps[j], id)
    ensures Nullish(ps[i]) ==> FindIndexById(ps, id) == Err(TypeError)
    ensures HasId(ps[i], id) ==> FindIndexById(ps, id) == Ok(i)
  {
    if i > 0 {
      FindIndexStops(ps[1..], id, i - 1);
    }
  }

  /** A search that meets neither a null record nor the id finds nothing. */
  lemma {:induction false} FindIndexMisses(ps: seq<Json>, id: Json)
    requires forall j :: 0 <= j < |ps| ==> !Nullish(ps[j]) && !HasId(ps[j], id)
    ensures FindIndexById(ps, id) == Ok(-1)
  {
    if ps != [] {
      FindIndexMisses(ps[1..], id);
    }
  }

  /**
   * Where savePrompt puts the record (storage.js:52-58): without an id it is
   * appended; with one it replaces the first record with that id, or is
   * appended when there is none.
   */
  function Place(ps: seq<Json>, rec: Prompt, idGiven: bool): (r: Result<seq<Json>>)
    ensures r.Ok? ==>
      || (|r.value| == |ps| + 1 && r.value[..|ps|] == ps && r.value[|ps|] == AsJson(rec))
      || (exists i :: 0 <= i < |ps| && HasId(ps[i], rec.id) && r.value == ps[i := AsJson(rec)])
    ensures r.Err? ==> idGiven && r.error == TypeError
  {
    if !idGiven then Ok(ps + [AsJson(rec)])
    else
      var idx :- FindIndexById(ps, rec.id);
      if idx != -1 then Ok(ps[idx := AsJson(rec)]) else Ok(ps + [AsJson(rec)])
  }

  /** Without an id the record is appended and every existing record is kept. */
  lemma PlaceWithoutId(ps: seq<Json>, rec: Prompt)
    ensures Place(ps, rec, false) == Ok(ps + [AsJson(rec)])
    ensures |ps + [AsJson(rec)]| == |ps| + 1 && (ps + [AsJson(rec)])[..|ps|] == ps
  {
  }

  /** With an id held first by record `i`, only record `i` changes. */
  lemma PlaceReplacesFirstMatch(ps: seq<Json>, rec: Prompt, i: nat)
    requires i < |ps| && HasId(ps[i], rec.id)
    requires forall j :: 0 <= j < i ==> !Nullish(ps[j]) && !HasId(ps[j], rec.id)
    ensures Place(ps, rec, true) == Ok(ps[i := AsJson(rec)])
    ensures |ps[i := AsJson(rec)]| == |ps|
    ensures forall j :: 0 <= j < |ps| && j != i ==> ps[i := AsJson(rec)][j] == ps[j]
  {
  }

  /** With an id no record holds, the record is appended. */
  lemma PlaceAppendsUnmatched(ps: seq<Json>, rec: Prompt)
    requires forall j :: 0 <= j < |ps| ==> !Nullish(ps[j]) && !HasId(ps[j], rec.id)
    ensures Place(ps, rec, true) == Ok(ps + [AsJson(rec)])
  {
  }

  /** savePrompt against a store: the record it returns, or what it throws, and the store it leaves. */
  function SaveOutcome(items: map<string, Json>, reachable: bool, prompt: Json, freshId: string)
    : (r: (Result<Json>, map<string, Json>))
    ensures !reachable ==> r.0.Err? && r.1 == items
    ensures forall k :: k != PromptsKey ==> Lookup(r.1, k) == Lookup(items, k)
    ensures r.0.Ok? ==> Lookup(r.1, PromptsKey).Arr? && r.0.value in Lookup(r.1, PromptsKey).items
    ensures r.0.Ok? ==> exists rec :: Normalize(prompt, freshId) == Ok(rec) && r.0.value == AsJson(rec)
    ensures r.0.Ok? ==>
      && Normalize(prompt, freshId).Ok?
      && Place(ReadPrompts(items, reachable).0, Normalize(prompt, freshId).value, Truthy(Field(prompt, "id"))).Ok?
      && Lookup(r.1, PromptsKey)
         == Arr(Place(ReadPrompts(items, reachable).0, Normalize(prompt, freshId).value, Truthy(Field(prompt, "id"))).value)
    ensures r.0.Err? ==> r.1 == ReadPrompts(items, reachable).1
  {
    var (ps, afterRead) := ReadPrompts(items, reachable);
    match Normalize(prompt, freshId)
    case Err(e) => (Err(e), afterRead)
    case Ok(rec) =>
      match Place(ps, rec, Truthy(Field(prompt, "id")))
      case Err(e) => (Err(e), afterRead)
      case Ok(placed) =>
        if !reachable then (Err(StoreUnavailable), afterRead)
        else
          assert AsJson(rec) in placed by {
            if |placed| != |ps| + 1 || placed[..|ps|] != ps || placed[|ps|] != AsJson(rec) {
              var i :| 0 <= i < |ps| && HasId(ps[i], rec.id) && placed == ps[i := AsJson(rec)];
              assert placed[i] == AsJson(rec);
            }
          }
          (Ok(AsJson(rec)), afterRead[PromptsKey := Arr(placed)])
  }

  // ---------------------------------------------------------------- deleting and finding

  /** `ps.filter(p => p.id !== id)`: reading the id of a null or undefined record throws. */
  function RemoveById(ps: seq<Json>, id: string): (r: Result<seq<Json>>)
    ensures r.Err? <==> exists j :: 0 <= j < |ps| && Nullish(ps[j])
    ensures r.Err? ==> r.error == TypeError
    ensures r.Ok? ==> IsSubsequence(r.value, ps)
    ensures r.Ok? ==> forall p :: p in r.value ==> !HasId(p, Str(id))
    ensures r.Ok? ==> forall p :: !HasId(p, Str(id)) ==> multiset(r.value)[p] == multiset(ps)[p]
  {
    if ps == [] then Ok([])
    else if Nullish(ps[0]) then Err(TypeError)
    else
      assert ps == [ps[0]] + ps[1..];
      match RemoveById(ps[1..], id)
      case Err(e) =>
        ghost var j :| 0 <= j < |ps| - 1 && Nullish(ps[1..][j]);
        assert Nullish(ps[j + 1]);
        Err(e)
      case Ok(rest) =>
        if HasId(ps[0], Str(id)) then
          SubsequenceSkip(rest, ps[0], ps[1..]);
          Ok(rest)
        else
          Ok([ps[0]] + rest)
  }

  /** Deleting an id no record holds changes nothing. */
  lemma {:induction false} RemoveMissing(ps: seq<Json>, id: string)
    requires forall j :: 0 <= j < |ps| ==> !Nullish(ps[j]) && !HasId(ps[j], Str(id))
    ensures RemoveById(ps, id) == Ok(ps)
  {
    if ps != [] {
      RemoveMissing(ps[1..], id);
      assert [ps[0]] + ps[1..] == ps;
    }
  }

  /** Deleting twice is deleting once. */
  lemma RemoveIdempotent(ps: seq<Json>, id: string)
    requires RemoveById(ps, id).Ok?
    ensures RemoveById(RemoveById(ps, id).value, id) == RemoveById(ps, id)
  {
    var rest := RemoveById(ps, id).value;
    forall j | 0 <= j < |rest| ensures !Nullish(rest[j]) && !HasId(rest[j], Str(id)) {
      assert rest[j] in rest;
      assert multiset(rest)[rest[j]] > 0;
    }
    RemoveMissing(rest, id);
  }

  /** deletePrompt against a store: what it throws, if anything, and the store it leaves. */
  function DeleteOutcome(items: map<string, Json>, reachable: bool, id: string): (r: (Result<()>, map<string, Json>))
    ensures forall k :: k != PromptsKey ==> Lookup(r.1, k) == Lookup(items, k)
    ensures r.0.Ok? <==> reachable && RemoveById(ReadPrompts(items, reachable).0, id).Ok?
    ensures r.0.Ok? ==> Lookup(r.1, PromptsKey).Arr?
                        && IsSubsequence(Lookup(r.1, PromptsKey).items, ReadPrompts(items, reachable).0)
                        && forall p :: p in Lookup(r.1, PromptsKey).items ==> !HasId(p, Str(id))
    ensures r.0.Ok? ==> Lookup(r.1, PromptsKey) == Arr(RemoveById(ReadPrompts(items, reachable).0, id).value)
    ensures r.0.Ok? ==> forall p :: !HasId(p, Str(id)) ==>
      multiset(Lookup(r.1, PromptsKey).items)[p] == multiset(ReadPrompts(items, reachable).0)[p]
    ensures r.0.Err? ==> r.1 == ReadPrompts(items, reachable).1
  {
    var (ps, afterRead) := ReadPrompts(items, reachable);
    match RemoveById(ps, id)
    case Err(e) => (Err(e), afterRead)
    case Ok(kept) =>
      if !reachable then (Err(StoreUnavailable), afterRead)
      else (Ok(()), afterRead[PromptsKey := Arr(kept)])
  }

  /** Deleting an id a second time changes nothing more. */
  lemma DeleteTwice(items: map<string, Json>, id: string)
    requires DeleteOutcome(items, true, id).0.Ok?
    ensures DeleteOutcome(DeleteOutcome(items, true, id).1, true, id) == DeleteOutcome(items, true, id)
  {
    var (ps, afterRead) := ReadPrompts(items, true);
    var kept := RemoveById(ps, id).value;
    var once := afterRead[PromptsKey := Arr(kept)];
    assert ReadPrompts(once, true) == (kept, once);
    RemoveIdempotent(ps, id);
    assert once[PromptsKey := Arr(kept)] == once;
  }

  /** getPromptById: the first record with the id; None when there is none or when the search throws. */
  function FindById(ps: seq<Json>, id: string): (r: Option<Json>)
    ensures r.Some? ==> exists i :: 0 <= i < |ps| && ps[i] == r.value && HasId(ps[i], Str(id))
                                 && (forall j :: 0 <= j < i ==> !HasId(ps[j], Str(id)))
                                 && (forall j :: 0 <= j < i ==> !Nullish(ps[j]))
    ensures r.None? ==> forall i :: 0 <= i < |ps| && HasId(ps[i], Str(id)) ==>
      exists j :: 0 <= j < i && Nullish(ps[j])
  {
    match FindIndexById(ps, Str(id))
    case Ok(i) => if i >= 0 then Some(ps[i]) else None
    case Err(_) => None
  }

  /** The index of the first record with the id, when every record before it can be read. */
  lemma FindIndexOfAppended(ps: seq<Json>, p: Json, id: Json)
    requires forall j :: 0 <= j < |ps| ==> !Nullish(ps[j]) && !HasId(ps[j], id)
    requires HasId(p, id)
    ensures FindIndexById(ps + [p], id) == Ok(|ps|)
  {
    var qs := ps + [p];
    assert forall j :: 0 <= j < |ps| ==> qs[j] == ps[j];
    assert qs[|ps|] == p;
  }

  /**
   * A record saved without an id is found again under the fresh id it was
   * given, provided no record already held that id.
   */
  lemma SaveThenFind(items: map<string, Json>, prompt: Json, freshId: string)
    requires SaveOutcome(items, true, prompt, freshId).0.Ok? && !Truthy(Field(prompt, "id"))
    requires var ps := ReadPrompts(items, true).0;
             forall j :: 0 <= j < |ps| ==> !Nullish(ps[j]) && !HasId(ps[j], Str(freshId))
    ensures var (saved, after) := SaveOutcome(items, true, prompt, freshId);
            FindById(ReadPrompts(after, true).0, freshId) == Some(saved.value)
  {
    var ps := ReadPrompts(items, true).0;
    var rec := Normalize(prompt, freshId).value;
    var placed := ps + [AsJson(rec)];
    assert Place(ps, rec, false) == Ok(placed);
    assert Field(AsJson(rec), "id") == Str(freshId);
    FindIndexOfAppended(ps, AsJson(rec), Str(freshId));
  }

  // ---------------------------------------------------------------- tags

  /** `items.map(tag => tag.trim())`, left to right: a TypeError at the first non-string tag. */
  function TrimTags(items: seq<Json>): (r: Result<seq<string>>)
    ensures r.Ok? <==> forall i :: 0 <= i < |items| ==> items[i].Str?
    ensures r.Ok? ==> |r.value| == |items| && forall i :: 0 <= i < |items| ==> r.value[i] == Trim(items[i].s)
  {
    if items == [] then Ok([])
    else
      var init := items[..|items| - 1];
      var last := items[|items| - 1];
      assert forall i :: 0 <= i < |init| ==> init[i] == items[i];
      match TrimTags(init)
      case Err(e) => Err(e)
      case Ok(prev) => if last.Str? then Ok(prev + [Trim(last.s)]) else Err(TypeError)
  }

  /** The trimmed tags getAllTags takes from one record: those of an array `tags`, else none. */
  function RecordTags(p: Json): (r: Result<seq<string>>)
    ensures r.Err? <==> Nullish(p) || (Field(p, "tags").Arr? && TrimTags(Field(p, "tags").items).Err?)
  {
    if Nullish(p) then Err(TypeError)
    else if Field(p, "tags").Arr? then TrimTags(Field(p, "tags").items)
    else Ok([])
  }

  /** Adding strings one by one to a JavaScript Set, which keeps the order of first insertion. */
  function AddAll(order: seq<string>, ts: seq<string>): (r: seq<string>)
    ensures forall t :: t in r <==> t in order || t in ts
  {
    if ts == [] then order
    else
      var prev := AddAll(order, ts[..|ts| - 1]);
      var last := ts[|ts| - 1];
      assert ts == ts[..|ts| - 1] + [last];
      if last in prev then prev else prev + [last]
  }

  /** The contents of the tag Set after the forEach over the records (storage.js:91-97). */
  function TagOrder(ps: seq<Json>): (r: Result<seq<string>>)
    ensures r.Ok? <==> forall i :: 0 <= i < |ps| ==> RecordTags(ps[i]).Ok?
  {
    if ps == [] then Ok([])
    else
      var init := ps[..|ps| - 1];
      assert forall i :: 0 <= i < |init| ==> init[i] == ps[i];
      match TagOrder(init)
      case Err(e) => Err(e)
      case Ok(prev) =>
        match RecordTags(ps[|ps| - 1])
        case Err(e) => Err(e)
        case Ok(ts) => Ok(AddAll(prev, ts))
  }

  /** Some record of `ps` carries the tag `t`. */
  predicate TaggedBy(ps: seq<Json>, t: string) {
    exists i :: 0 <= i < |ps| && RecordTags(ps[i]).Ok? && t in RecordTags(ps[i]).value
  }

  lemma TaggedBySnoc(ps: seq<Json>, p: Json, t: string)
    ensures TaggedBy(ps + [p], t) <==> TaggedBy(ps, t) || (RecordTags(p).Ok? && t in RecordTags(p).value)
  {
    var qs := ps + [p];
    if TaggedBy(qs, t) && !(RecordTags(p).Ok? && t in RecordTags(p).value) {
      var i :| 0 <= i < |qs| && RecordTags(qs[i]).Ok? && t in RecordTags(qs[i]).value;
      assert i < |ps| && qs[i] == ps[i];
    }
    if TaggedBy(ps, t) {
      var i :| 0 <= i < |ps| && RecordTags(ps[i]).Ok? && t in RecordTags(ps[i]).value;
      assert qs[i] == ps[i];
    }
    if RecordTags(p).Ok? && t in RecordTags(p).value {
      assert qs[|ps|] == p;
    }
  }

  /** The Set holds exactly the trimmed tags of the records' tag arrays. */
  lemma {:induction false} TagOrderMembers(ps: seq<Json>)
    requires TagOrder(ps).Ok?
    ensures forall t :: t in TagOrder(ps).value <==> TaggedBy(ps, t)
  {
    if ps != [] {
      var init := ps[..|ps| - 1];
      var last := ps[|ps| - 1];
      assert ps == init + [last];
      TagOrderMembers(init);
      assert TagOrder(ps).value == AddAll(TagOrder(init).value, RecordTags(last).value);
      forall t ensures t in TagOrder(ps).value <==> TaggedBy(ps, t) {
        TaggedBySnoc(init, last, t);
      }
    }
  }

  /**
   * getAllTags (storage.js:88-104): every trimmed tag of every record whose
   * `tags` is an array, each once, in ascending order; [] when reading a tag throws.
   */
  function AllTags(ps: seq<Json>): (r: seq<string>)
    ensures StrictlyAscending(r)
    ensures TagOrder(ps).Ok? ==> forall t :: t in r <==> TaggedBy(ps, t)
    ensures TagOrder(ps).Err? ==> r == []
  {
    match TagOrder(ps)
    case Ok(order) => TagOrderMembers(ps); SortStrings(order)
    case Err(_) => []
  }

  // ---------------------------------------------------------------- export and selectors

  /** The document exportPrompts serialises (storage.js:109-113); `stamp` is the ISO time of the export. */
  function ExportDocument(ps: seq<Json>, stamp: string): (doc: Json)
    ensures Prop(doc, "version") == Ok(Str("1.0"))
    ensures Prop(doc, "exported") == Ok(Str(stamp))
    ensures Prop(doc, "prompts") == Ok(Arr(ps))
  {
    Obj(map["version" := Str("1.0"), "exported" := Str(stamp), "prompts" := Arr(ps)])
  }

  /** getDefaultSelectors (storage.js:187-197): the input field to fill on each supported host. */
  function DefaultSelectors(): (r: map<string, string>)
    ensures forall host :: host in r ==> r[host] in {"#prompt-textarea", "[contenteditable=\"true\"]", "textarea"}
  {
    var r := map[
      "chat.openai.com" := "#prompt-textarea",
      "gemini.google.com" := "[contenteditable=\"true\"]",
      "claude.ai" := "[contenteditable=\"true\"]",
      "chat.mistral.ai" := "textarea",
      "grok.x.ai" := "textarea",
      "www.perplexity.ai" := "textarea",
      "chat.deepseek.com" := "textarea"
    ];
    r
  }

  function SelectorsJson(m: map<string, string>): Json {
    Obj(map host | host in m :: Str(m[host]))
  }

  /** getSelectors (storage.js:177-185): the stored selectors when truthy, else the defaults. */
  function SelectorsFrom(items: map<string, Json>, reachable: bool): (r: Json)
    ensures reachable && Truthy(Lookup(items, SelectorsKey)) ==> r == Lookup(items, SelectorsKey)
    ensures !reachable || !Truthy(Lookup(items, SelectorsKey)) ==> r == SelectorsJson(DefaultSelectors())
  {
    if reachable && Truthy(Lookup(items, SelectorsKey)) then Lookup(items, SelectorsKey)
    else SelectorsJson(DefaultSelectors())
  }
}
