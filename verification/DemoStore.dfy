/** The durable table of dealing records. */
module DemoStore {
  import opened Outcomes
  import opened DemoExecution
  import opened DemoCodec

  datatype Row = Row(cycleId: string, dealReference: string, lifecycle: string, document: Document, createdAt: string)

  datatype StoreError = IntentConflicts | ReferenceConflicts | UnknownOrConflicting | Undecodable(error: DecodeError)

  function RowOf(e: ExecutionRecord, t: Texts): Row {
    Row(t.ofId(e.request.cycleId), e.request.dealReference, OfLifecycle(e.lifecycle), EncodeRecord(e, t),
        t.ofTime(e.request.createdAt))
  }

  /** The lifecycles that a restart must reconcile with the broker. */
  predicate Sensitive(l: Lifecycle) {
    l == Submitted || l == Ambiguous || l == ConfirmedAccepted || l == CloseRequested
  }

  const INCOMPLETE: set<string> := {"SUBMITTED", "AMBIGUOUS", "CONFIRMED_ACCEPTED", "CLOSE_REQUESTED"}

  lemma IncompleteIsSensitive(l: Lifecycle)
    ensures OfLifecycle(l) in INCOMPLETE <==> Sensitive(l)
  {
    LifecycleKept(l);
    LifecycleKept(Submitted);
    LifecycleKept(Ambiguous);
    LifecycleKept(ConfirmedAccepted);
    LifecycleKept(CloseRequested);
  }

  lemma IdTextsDiffer(t: Texts, a: int, b: int)
    requires Faithful(t) && t.ofId(a) == t.ofId(b)
    ensures a == b
  {
    assert t.toId(t.ofId(a)) == Some(a) && t.toId(t.ofId(b)) == Some(b);
  }

  /** A table keyed by the text of an identifier. */
  ghost predicate Keyed<R(!new)>(rows: map<string, R>, image: map<int, R>, ofId: int -> string) {
    && (forall id :: id in image ==> ofId(id) in rows && rows[ofId(id)] == image[id])
    && (forall key :: key in rows ==> exists id :: id in image && ofId(id) == key)
  }

  lemma KeyedNext<R(!new)>(rows: map<string, R>, image: map<int, R>, t: Texts, id: int, row: R)
    requires Faithful(t) && Keyed(rows, image, t.ofId)
    ensures Keyed(rows[t.ofId(id) := row], image[id := row], t.ofId)
  {
    var rows', image' := rows[t.ofId(id) := row], image[id := row];
    forall other | other in image'
      ensures t.ofId(other) in rows' && rows'[t.ofId(other)] == image'[other]
    {
      if t.ofId(other) == t.ofId(id) {
        IdTextsDiffer(t, other, id);
      }
    }
    forall key | key in rows'
      ensures exists other :: other in image' && t.ofId(other) == key
    {
      if key == t.ofId(id) {
        assert id in image';
      } else {
        var other :| other in image && t.ofId(other) == key;
        assert other in image';
      }
    }
  }

  lemma KeyedMeans<R(!new)>(rows: map<string, R>, image: map<int, R>, t: Texts, id: int)
    requires Faithful(t) && Keyed(rows, image, t.ofId)
    ensures t.ofId(id) in rows <==> id in image
    ensures id in image ==> rows[t.ofId(id)] == image[id]
  {
    if t.ofId(id) in rows {
      var owner :| owner in image && t.ofId(owner) == t.ofId(id);
      IdTextsDiffer(t, owner, id);
    }
  }

  ghost function Image(contents: map<int, ExecutionRecord>, t: Texts): map<int, Row> {
    map id | id in contents :: RowOf(contents[id], t)
  }

  ghost predicate OneReferenceEach(contents: map<int, ExecutionRecord>) {
    && (forall id :: id in contents ==> contents[id].request.intentId == id)
    && (forall a, b :: a in contents && b in contents && a != b ==>
          contents[a].request.dealReference != contents[b].request.dealReference)
  }

  /** The table holds exactly the encoded forms of the records, one per intent and per deal reference. */
  ghost predicate Holds(rows: map<string, Row>, contents: map<int, ExecutionRecord>, t: Texts) {
    Keyed(rows, Image(contents, t), t.ofId) && OneReferenceEach(contents)
  }

  /** What reading a stored record back gives. */
  function Reload(e: ExecutionRecord, t: Texts): Result<ExecutionRecord, StoreError> {
    match DecodeRecord(EncodeRecord(e, t), t)
    case Ok(x) => Ok(x)
    case Err(error) => Err(Undecodable(error))
  }

  function Decode(document: Document, t: Texts): Result<ExecutionRecord, StoreError> {
    match DecodeRecord(document, t)
    case Ok(x) => Ok(x)
    case Err(error) => Err(Undecodable(error))
  }

  lemma AddRow(rows: map<string, Row>, contents: map<int, ExecutionRecord>, t: Texts, e: ExecutionRecord)
    requires Faithful(t) && Holds(rows, contents, t)
    requires forall id :: id in contents && id != e.request.intentId ==>
               contents[id].request.dealReference != e.request.dealReference
    ensures Holds(rows[t.ofId(e.request.intentId) := RowOf(e, t)], contents[e.request.intentId := e], t)
  {
    var id := e.request.intentId;
    KeyedNext(rows, Image(contents, t), t, id, RowOf(e, t));
    assert Image(contents[id := e], t) == Image(contents, t)[id := RowOf(e, t)];
  }

  lemma RowMeans(rows: map<string, Row>, contents: map<int, ExecutionRecord>, t: Texts, id: int)
    requires Faithful(t) && Holds(rows, contents, t)
    ensures t.ofId(id) in rows <==> id in contents
    ensures id in contents ==> rows[t.ofId(id)] == RowOf(contents[id], t)
  {
    KeyedMeans(rows, Image(contents, t), t, id);
  }

  predicate ReferenceHeld(rows: map<string, Row>, reference: string) {
    exists key :: key in rows && rows[key].dealReference == reference
  }

  lemma ReferenceMeans(rows: map<string, Row>, contents: map<int, ExecutionRecord>, t: Texts, reference: string)
    requires Faithful(t) && Holds(rows, contents, t)
    ensures ReferenceHeld(rows, reference) <==>
            exists id :: id in contents && contents[id].request.dealReference == reference
  {
    if ReferenceHeld(rows, reference) {
      var key :| key in rows && rows[key].dealReference == reference;
      var id :| id in Image(contents, t) && t.ofId(id) == key;
      assert contents[id].request.dealReference == reference;
    }
    forall id | id in contents && contents[id].request.dealReference == reference
      ensures ReferenceHeld(rows, reference)
    {
      RowMeans(rows, contents, t, id);
      assert rows[t.ofId(id)].dealReference == reference;
    }
  }

  class SQLiteDemoExecutionStore {
    const texts: Texts
    var rows: map<string, Row>
    ghost var contents: map<int, ExecutionRecord>

    ghost predicate Valid()
      reads this
    {
      Faithful(texts) && Holds(rows, contents, texts)
    }

    constructor (texts: Texts)
      requires Faithful(texts)
      ensures Valid() && this.texts == texts && contents == map[]
    {
      this.texts := texts;
      rows, contents := map[], map[];
    }

    method Get(id: int) returns (r: Result<Option<ExecutionRecord>, StoreError>)
      requires Valid()
      ensures id !in contents ==> r == Ok(None)
      ensures id in contents ==> r == match Reload(contents[id], texts)
                                      case Ok(e) => Ok(Some(e))
                                      case Err(error) => Err(error)
    {
      RowMeans(rows, contents, texts, id);
      if texts.ofId(id) !in rows {
        return Ok(None);
      }
      var decoded := Decode(rows[texts.ofId(id)].document, texts);
      if decoded.Err? {
        return Err(decoded.error);
      }
      return Ok(Some(decoded.value));
    }

    /** A known intent returns its stored record or conflicts; a new one is stored unless its deal reference is taken. */
    method Put(e: ExecutionRecord) returns (r: Result<ExecutionRecord, StoreError>)
      requires Valid()
      modifies this
      ensures Valid()
      ensures var id := e.request.intentId;
              if id in old(contents) then
                && contents == old(contents)
                && r == match Reload(old(contents)[id], texts)
                        case Ok(stored) => if stored.request != e.request then Err(IntentConflicts) else Ok(stored)
                        case Err(error) => Err(error)
              else if exists other :: other in old(contents) && old(contents)[other].request.dealReference == e.request.dealReference then
                contents == old(contents) && r == Err(ReferenceConflicts)
              else contents == old(contents)[id := e] && r == Ok(e)
    {
      var key := texts.ofId(e.request.intentId);
      RowMeans(rows, contents, texts, e.request.intentId);
      ReferenceMeans(rows, contents, texts, e.request.dealReference);
      if key in rows {
        var existing := Decode(rows[key].document, texts);
        if existing.Err? {
          return existing;
        }
        return if existing.value.request != e.request then Err(IntentConflicts) else existing;
      }
      if ReferenceHeld(rows, e.request.dealReference) {
        return Err(ReferenceConflicts);
      }
      AddRow(rows, contents, texts, e);
      rows := rows[key := RowOf(e, texts)];
      contents := contents[e.request.intentId := e];
      return Ok(e);
    }

    /** Overwrites the lifecycle and document of a known intent with the same request. */
    method Replace(e: ExecutionRecord) returns (r: Result<ExecutionRecord, StoreError>)
      requires Valid()
      modifies this
      ensures Valid()
      ensures var id := e.request.intentId;
              if id !in old(contents) then contents == old(contents) && r == Err(UnknownOrConflicting)
              else
                match Reload(old(contents)[id], texts)
                case Err(error) => contents == old(contents) && r == Err(error)
                case Ok(stored) =>
                  if stored.request != e.request then contents == old(contents) && r == Err(UnknownOrConflicting)
                  else contents == old(contents)[id := e] && r == Ok(e)
    {
      var key := texts.ofId(e.request.intentId);
      RowMeans(rows, contents, texts, e.request.intentId);
      if key !in rows {
        return Err(UnknownOrConflicting);
      }
      var existing := Decode(rows[key].document, texts);
      if existing.Err? {
        return existing;
      }
      if existing.value.request != e.request {
        return Err(UnknownOrConflicting);
      }
      ReloadKeepsRequest(contents[e.request.intentId], texts);
      AddRow(rows, contents, texts, e);
      rows := rows[key := rows[key].(lifecycle := OfLifecycle(e.lifecycle), document := EncodeRecord(e, texts))];
      contents := contents[e.request.intentId := e];
      return Ok(e);
    }

    method HasOtherCycleRecord(cycleId: int, intentId: int) returns (found: bool)
      requires Valid()
      ensures found <==> exists id :: id in contents && contents[id].request.cycleId == cycleId && id != intentId
    {
      found := exists key :: key in rows && rows[key].cycleId == texts.ofId(cycleId) && key != texts.ofId(intentId);
      if found {
        ghost var key :| key in rows && rows[key].cycleId == texts.ofId(cycleId) && key != texts.ofId(intentId);
        ghost var id :| id in Image(contents, texts) && texts.ofId(id) == key;
        IdTextsDiffer(texts, contents[id].request.cycleId, cycleId);
      }
      forall id | id in contents && contents[id].request.cycleId == cycleId && id != intentId
        ensures found
      {
        RowMeans(rows, contents, texts, id);
        assert rows[texts.ofId(id)].cycleId == texts.ofId(cycleId);
        if texts.ofId(id) == texts.ofId(intentId) {
          IdTextsDiffer(texts, id, intentId);
        }
      }
    }

    /** The restart-sensitive rows, selected by their lifecycle column. */
    method SensitiveRows() returns (keys: set<string>)
      requires Valid()
      ensures forall id :: id in contents ==> (texts.ofId(id) in keys <==> Sensitive(contents[id].lifecycle))
      ensures keys <= rows.Keys
    {
      keys := set key | key in rows && rows[key].lifecycle in INCOMPLETE;
      forall id | id in contents
        ensures texts.ofId(id) in keys <==> Sensitive(contents[id].lifecycle)
      {
        RowMeans(rows, contents, texts, id);
        IncompleteIsSensitive(contents[id].lifecycle);
      }
    }

    /** Exactly the records in the four restart-sensitive lifecycles, unless one of them cannot be decoded. */
    method IncompleteRecords() returns (r: Result<set<ExecutionRecord>, StoreError>)
      requires Valid()
      ensures r.Ok? <==> AllOk(Reloads(contents, texts))
      ensures r.Ok? ==> Lists(r.value, Reloads(contents, texts))
    {
      var selected := SensitiveRows();
      r := Collect(Answers(rows, selected, texts));
      SelectedAre(rows, contents, texts, selected);
      AnswersAre(rows, contents, texts, selected);
    }
  }

  /** What reading back gives for each record in a restart-sensitive lifecycle, under its intent's text. */
  ghost function Reloads(contents: map<int, ExecutionRecord>, t: Texts): map<string, Result<ExecutionRecord, StoreError>>
    requires Faithful(t)
  {
    map key | key in SensitiveKeys(contents, t) :: Reload(contents[OwnerOf(contents, t, key)], t)
  }

  ghost function SensitiveKeys(contents: map<int, ExecutionRecord>, t: Texts): set<string> {
    set id | id in contents && Sensitive(contents[id].lifecycle) :: t.ofId(id)
  }

  ghost function OwnerOf(contents: map<int, ExecutionRecord>, t: Texts, key: string): (id: int)
    requires Faithful(t) && key in SensitiveKeys(contents, t)
    ensures id in contents && Sensitive(contents[id].lifecycle) && t.ofId(id) == key
  {
    t.toId(key).value
  }

  lemma SelectedAre(rows: map<string, Row>, contents: map<int, ExecutionRecord>, t: Texts, selected: set<string>)
    requires Faithful(t) && Holds(rows, contents, t) && selected <= rows.Keys
    requires forall id :: id in contents ==> (t.ofId(id) in selected <==> Sensitive(contents[id].lifecycle))
    ensures selected == SensitiveKeys(contents, t)
  {
    forall key | key in selected
      ensures key in SensitiveKeys(contents, t)
    {
      var id :| id in Image(contents, t) && t.ofId(id) == key;
      assert id in contents;
    }
  }

  lemma DocumentOf(rows: map<string, Row>, contents: map<int, ExecutionRecord>, t: Texts, key: string)
    requires Faithful(t) && Holds(rows, contents, t) && key in SensitiveKeys(contents, t)
    ensures key in rows && rows[key].document == EncodeRecord(contents[OwnerOf(contents, t, key)], t)
  {
    RowMeans(rows, contents, t, OwnerOf(contents, t, key));
  }

  function Answers(rows: map<string, Row>, selected: set<string>, t: Texts): map<string, Result<ExecutionRecord, StoreError>>
    requires selected <= rows.Keys
  {
    map key | key in selected :: Decode(rows[key].document, t)
  }

  lemma AnswersAre(rows: map<string, Row>, contents: map<int, ExecutionRecord>, t: Texts, selected: set<string>)
    requires Faithful(t) && Holds(rows, contents, t)
    requires selected == SensitiveKeys(contents, t) && selected <= rows.Keys
    ensures Answers(rows, selected, t) == Reloads(contents, t)
  {
    var answers, reloads := Answers(rows, selected, t), Reloads(contents, t);
    forall key | key in selected
      ensures key in answers && key in reloads && answers[key] == reloads[key]
    {
      AnswerIs(rows, contents, t, selected, key);
    }
    assert answers.Keys == selected == reloads.Keys;
    SameMap(answers, reloads);
  }

  lemma SameMap<R>(a: map<string, R>, b: map<string, R>)
    requires a.Keys == b.Keys && forall key :: key in a ==> a[key] == b[key]
    ensures a == b
  {
  }

  lemma AnswerIs(rows: map<string, Row>, contents: map<int, ExecutionRecord>, t: Texts, selected: set<string>, key: string)
    requires Faithful(t) && Holds(rows, contents, t)
    requires key in selected && selected == SensitiveKeys(contents, t) && selected <= rows.Keys
    ensures key in Answers(rows, selected, t) && key in Reloads(contents, t)
    ensures Answers(rows, selected, t)[key] == Reloads(contents, t)[key]
  {
    DocumentOf(rows, contents, t, key);
  }

  ghost predicate Answered<R(!new)>(answers: map<string, R>, x: R) {
    exists key :: key in answers && answers[key] == x
  }

  ghost predicate AllOk<T, E>(answers: map<string, Result<T, E>>) {
    forall key :: key in answers ==> answers[key].Ok?
  }

  /** Exactly the values among the answers. */
  ghost predicate Lists<T(!new), E(!new)>(found: set<T>, answers: map<string, Result<T, E>>) {
    forall x :: x in found <==> Answered(answers, Ok(x))
  }

  /** All the decoded values, or the error of one that failed. */
  method Collect<T(==,!new), E(!new)>(answers: map<string, Result<T, E>>) returns (r: Result<set<T>, E>)
    ensures r.Ok? <==> AllOk(answers)
    ensures r.Ok? ==> Lists(r.value, answers)
  {
    var todo, found := answers.Keys, {};
    while todo != {}
      invariant todo <= answers.Keys
      invariant forall key :: key in answers && key !in todo ==> answers[key].Ok?
      invariant forall x :: x in found ==> Answered(answers, Ok(x))
      invariant forall key :: key in answers && key !in todo && answers[key].Ok? ==> answers[key].value in found
      decreases |todo|
    {
      var key :| key in todo;
      if answers[key].Err? {
        return Err(answers[key].error);
      }
      todo := todo - {key};
      found := found + {answers[key].value};
    }
    return Ok(found);
  }

  lemma ReloadKeepsRequest(e: ExecutionRecord, t: Texts)
    requires Faithful(t)
    ensures Reload(e, t).Ok? <==> Readable(e)
    ensures Reload(e, t).Ok? ==> Reload(e, t).value == Clean(e) && Reload(e, t).value.request == e.request
  {
    StoredForm(e, t);
  }
}
