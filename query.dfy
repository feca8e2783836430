/**
 * Running a structured query against one collection: the request is built from an optional
 * filter and an optional ordering, POSTed with retry under the default budget, and the
 * response envelopes are handed out, document by document, by the `Query` iterator.
 */
module Query {
  import opened Wrappers
  import opened Http
  import opened Backoff
  import opened Documents

  datatype FieldReference = FieldReference(fieldPath: string)

  /** A comparison of one field with one value; `Op` stands for the REST field operators. */
  datatype FieldFilter<V, Op> = FieldFilter(value: V, op: Op, field: FieldReference)

  /** A filter; only the field-filter form is ever built, the composite and unary forms stay absent. */
  datatype Filter<V, Op> = Filter(fieldFilter: Option<FieldFilter<V, Op>>)

  /** One ordering; an absent direction is the server's default, ascending. */
  datatype Order = Order(field: Option<FieldReference>, direction: Option<string>)

  datatype CollectionSelector = CollectionSelector(collectionId: Option<string>, allDescendants: Option<bool>)

  datatype Projection = Projection(fields: Option<seq<FieldReference>>)

  /** The parts of `StructuredQuery` that `query` sets; every other part keeps its default (absent). */
  datatype StructuredQuery<V, Op> = StructuredQuery(
    select: Option<Projection>,
    from: Option<seq<CollectionSelector>>,
    whereFilter: Option<Filter<V, Op>>,
    orderBy: Option<seq<Order>>)

  datatype RunQueryRequest<V, Op> = RunQueryRequest(structuredQuery: Option<StructuredQuery<V, Op>>)

  /** One envelope of the response stream; envelopes without a document carry only progress data. */
  datatype RunQueryResponse<V> = RunQueryResponse(document: Option<Document<V>>, readTime: Option<string>, skippedResults: nat)

  /** The direction an ordering pair asks for: ascending is the default, otherwise "desc". */
  function Direction(ascending: bool): Option<string>
  {
    if ascending then None else Some("desc")
  }

  /**
   * `q` is the query `query` sends for these arguments: the whole collection `collectionId`,
   * all fields selected, the filter (if any) on the converted value, and one ordering per
   * given pair, in the given order.
   */
  ghost predicate IsQueryFor<J, V, Op>(q: StructuredQuery<V, Op>, collectionId: string, whereValue: Option<(J, Op, string)>, convert: J -> V, orderByValue: Option<seq<(string, bool)>>)
  {
    && q.select == Some(Projection(None))
    && q.from == Some([CollectionSelector(Some(collectionId), None)])
    && (whereValue.None? ==> q.whereFilter.None?)
    && (whereValue.Some? ==>
         var (v, op, field) := whereValue.value;
         q.whereFilter == Some(Filter(Some(FieldFilter(convert(v), op, FieldReference(field))))))
    && (orderByValue.None? <==> q.orderBy.None?)
    && (orderByValue.Some? ==>
         && |q.orderBy.value| == |orderByValue.value|
         && forall i | 0 <= i < |orderByValue.value| ::
              q.orderBy.value[i] == Order(Some(FieldReference(orderByValue.value[i].0)), Direction(orderByValue.value[i].1)))
  }

  /** The request-building half of `query`. */
  method BuildStructuredQuery<J, V, Op>(collectionId: string, whereValue: Option<(J, Op, string)>, convert: J -> V, orderByValue: Option<seq<(string, bool)>>)
    returns (q: StructuredQuery<V, Op>)
    ensures IsQueryFor(q, collectionId, whereValue, convert, orderByValue)
  {
    q := StructuredQuery(Some(Projection(None)), Some([CollectionSelector(Some(collectionId), None)]), None, None);
    if whereValue.Some? {
      var (v, operator, field) := whereValue.value;
      var value := convert(v);
      q := q.(whereFilter := Some(Filter(Some(FieldFilter(value, operator, FieldReference(field))))));
    }
    if orderByValue.Some? {
      var ov := orderByValue.value;
      var orders: seq<Order> := [];
      for i := 0 to |ov|
        invariant |orders| == i
        invariant forall j | 0 <= j < i :: orders[j] == Order(Some(FieldReference(ov[j].0)), Direction(ov[j].1))
      {
        var (f, asc) := ov[i];
        var o := Order(Some(FieldReference(f)), None);
        o := o.(direction := if asc then None else Some("desc"));
        orders := orders + [o];
      }
      q := q.(orderBy := Some(orders));
    }
  }

  /** The document one envelope carries, as a sequence of zero or one documents. */
  function Carried<V>(r: RunQueryResponse<V>): seq<Document<V>>
  {
    if r.document.Some? then [r.document.value] else []
  }

  /** The documents the envelopes carry, in their order; document-less envelopes contribute nothing. */
  function DocumentsOf<V>(rs: seq<RunQueryResponse<V>>): (ds: seq<Document<V>>)
    ensures |ds| <= |rs|
  {
    if rs == [] then [] else Carried(rs[0]) + DocumentsOf(rs[1..])
  }

  lemma {:induction false} DocumentsAppend<V>(a: seq<RunQueryResponse<V>>, b: seq<RunQueryResponse<V>>)
    ensures DocumentsOf(a + b) == DocumentsOf(a) + DocumentsOf(b)
  {
    if a == [] {
      assert a + b == b;
    } else {
      var c := a + b;
      assert c[0] == a[0];
      assert c[1..] == a[1..] + b;
      DocumentsAppend(a[1..], b);
      calc {
        DocumentsOf(c);
        Carried(a[0]) + DocumentsOf(a[1..] + b);
        Carried(a[0]) + (DocumentsOf(a[1..]) + DocumentsOf(b));
        (Carried(a[0]) + DocumentsOf(a[1..])) + DocumentsOf(b);
      }
    }
  }

  /** Every envelope with a document contributes it, at the position its predecessors leave it. */
  lemma {:induction false} DocumentsAt<V>(rs: seq<RunQueryResponse<V>>, i: nat)
    requires i < |rs| && rs[i].document.Some?
    ensures var before := DocumentsOf(rs[..i]);
      |before| < |DocumentsOf(rs)| && DocumentsOf(rs)[|before|] == rs[i].document.value
  {
    assert rs == rs[..i] + [rs[i]] + rs[i + 1..];
    DocumentsAppend(rs[..i] + [rs[i]], rs[i + 1..]);
    DocumentsAppend(rs[..i], [rs[i]]);
    assert DocumentsOf([rs[i]]) == [rs[i].document.value] by {
      assert [rs[i]][1..] == [];
    }
  }

  /** Nothing else is yielded: every document comes from an envelope that carries it. */
  lemma {:induction false} DocumentsOfOrigin<V>(rs: seq<RunQueryResponse<V>>, k: nat)
    requires k < |DocumentsOf(rs)|
    ensures exists i | 0 <= i < |rs| :: rs[i].document == Some(DocumentsOf(rs)[k])
  {
    var head := Carried(rs[0]);
    if k < |head| {
      assert rs[0].document == Some(DocumentsOf(rs)[k]);
    } else {
      DocumentsOfOrigin(rs[1..], k - |head|);
      var i :| 0 <= i < |rs[1..]| && rs[1..][i].document == Some(DocumentsOf(rs[1..])[k - |head|]);
      assert rs[i + 1].document == Some(DocumentsOf(rs)[k]);
    }
  }

  /**
   * The iterator `query` returns: the envelopes of one response, consumed from the front.
   * `position` is how far the owned vector iterator has advanced.
   */
  class Query<V> {
    const envelopes: seq<RunQueryResponse<V>>
    var position: nat

    ghost predicate Valid()
      reads this
    {
      position <= |envelopes|
    }

    /** The envelopes not yet consumed. */
    function Remaining(): seq<RunQueryResponse<V>>
      reads this
      requires Valid()
    {
      envelopes[position..]
    }

    /** `Query(json.unwrap_or_default().into_iter())`: a null or absent body makes an empty query. */
    constructor (json: Option<seq<RunQueryResponse<V>>>)
      ensures Valid()
      ensures Remaining() == UnwrapOrEmpty(json)
      ensures json.None? ==> DocumentsOf(Remaining()) == []
    {
      envelopes := UnwrapOrEmpty(json);
      position := 0;
    }

    /**
     * `Iterator::next`: the document of the first remaining envelope that has one, consuming it
     * and the document-less envelopes before it; `None` once every envelope is consumed.
     */
    method Next() returns (d: Option<Document<V>>)
      requires Valid()
      modifies this
      ensures Valid() && position >= old(position)
      ensures d.None? ==> Remaining() == [] && DocumentsOf(old(Remaining())) == []
      ensures d.Some? ==>
        && old(position) < position
        && envelopes[position - 1].document == d
        && (forall j | old(position) <= j < position - 1 :: envelopes[j].document.None?)
        && DocumentsOf(old(Remaining())) == [d.value] + DocumentsOf(Remaining())
    {
      while position < |envelopes|
        invariant old(position) <= position <= |envelopes|
        invariant forall j | old(position) <= j < position :: envelopes[j].document.None?
        invariant DocumentsOf(old(Remaining())) == DocumentsOf(Remaining())
        decreases |envelopes| - position
      {
        var r := envelopes[position];
        assert envelopes[position..] == [r] + envelopes[position + 1..];
        position := position + 1;
        if r.document.Some? {
          return r.document;
        }
      }
      return None;
    }

    /** Iterating to the end yields exactly the documents of the envelopes, in order. */
    method Drain() returns (docs: seq<Document<V>>)
      requires Valid()
      modifies this
      ensures Valid() && Remaining() == []
      ensures docs == DocumentsOf(old(Remaining()))
    {
      docs := [];
      while true
        invariant Valid()
        invariant docs + DocumentsOf(Remaining()) == DocumentsOf(old(Remaining()))
        decreases |envelopes| - position
      {
        var d := Next();
        if d.None? {
          return;
        }
        docs := docs + [d.value];
      }
    }
  }

  /**
   * `query`: build the request, POST it with retry (errors name the collection), and wrap the
   * decoded envelopes. `decode` stands for `resp.json::<Option<Vec<RunQueryResponse>>>()`.
   */
  method RunQuery<J, V, Op>(
    collectionId: string,
    whereValue: Option<(J, Op, string)>,
    convert: J -> V,
    orderByValue: Option<seq<(string, bool)>>,
    transport: nat -> SendOutcome,
    clock: Clock,
    decode: Response -> Result<Option<seq<RunQueryResponse<V>>>, FirebaseError>)
    returns (r: Result<Query<V>, FirebaseError>, request: RunQueryRequest<V, Op>, calls: nat)
    ensures request.structuredQuery.Some?
    ensures IsQueryFor(request.structuredQuery.value, collectionId, whereValue, convert, orderByValue)
    ensures calls == Retry(Attempts(transport, collectionId), clock, BudgetMillis(FirestoreRequestRetryMaxElapsedTime)).calls
    ensures match ExpBackoffResult(Attempts(transport, collectionId), clock, FirestoreRequestRetryMaxElapsedTime)
      case Err(e) => r == Err(e)
      case Ok(resp) =>
        match decode(resp)
        case Err(e) => r == Err(e)
        case Ok(json) => r.Ok? && fresh(r.value) && r.value.Valid() && r.value.Remaining() == UnwrapOrEmpty(json)
  {
    var structuredQuery := BuildStructuredQuery(collectionId, whereValue, convert, orderByValue);
    request := RunQueryRequest(Some(structuredQuery));
    var resp;
    resp, calls := ExpBackoff(Attempts(transport, collectionId), clock, FirestoreRequestRetryMaxElapsedTime);
    match resp
    case Err(e) =>
      r := Err(e);
    case Ok(newResp) =>
      match decode(newResp)
      case Err(e) =>
        r := Err(e);
      case Ok(json) =>
        var query := new Query(json);
        r := Ok(query);
  }
}
