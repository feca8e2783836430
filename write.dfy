/**
 * Writing a document (`write`) and creating one under a chosen id (`create`). Each makes one
 * request and no retry: the outcome of its single send is the parameter `reply`. The document is
 * given as it came out of `pod_to_document` (`converted`), the response body is decoded into a
 * REST document by `decode` (`resp.json()`), and `parseRfc3339` stands for chrono's RFC 3339
 * parser followed by the conversion to UTC.
 */
module Write {
  import opened Wrappers
  import opened Http
  import opened Strings
  import opened StdPath
  import opened Documents

  datatype WriteOptions = WriteOptions(merge: bool)

  datatype WriteResult<D> = WriteResult(createTime: Option<D>, updateTime: Option<D>, documentId: string)

  /** One write: the request it sent (none if the document did not convert) and what it returns. */
  datatype WriteCall<V, D> = WriteCall(sent: Option<HttpRequest<Document<V>>>, result: Result<WriteResult<D>, FirebaseError>)

  const ExistsParam := "currentDocument.exists=true"
  const ExistsPrecondition := "?" + ExistsParam
  const MaskParamName := "updateMask.fieldPaths="
  const NameNotAPath := "Resulting documents 'name' field is not a valid path"
  const CreateTimeUnparsable := "Failed to parse rfc3339 date from 'create_time' field"
  const UpdateTimeUnparsable := "Failed to parse rfc3339 date from 'update_time' field"

  /** The field-mask parameters for the keys, one `&updateMask.fieldPaths=<key>` each, in order. */
  function MaskSuffix(keys: seq<string>): string
  {
    if keys == [] then "" else "&" + MaskParamName + keys[0] + MaskSuffix(keys[1..])
  }

  lemma {:induction false} MaskSuffixAppend(keys: seq<string>, k: string)
    ensures MaskSuffix(keys + [k]) == MaskSuffix(keys) + "&" + MaskParamName + k
  {
    if keys == [] {
      assert [k][1..] == [];
    } else {
      assert (keys + [k])[1..] == keys[1..] + [k];
      MaskSuffixAppend(keys[1..], k);
    }
  }

  /** `ks` lists every element of `s` exactly once: an iteration order of a map's keys. */
  ghost predicate Enumerates(ks: seq<string>, s: set<string>)
  {
    && (forall i, j | 0 <= i < j < |ks| :: ks[i] != ks[j])
    && (forall k :: k in ks <==> k in s)
  }

  /**
   * The URL of `write`: for a merge of a document that has fields, the existence precondition
   * and one mask entry per field, in the map's iteration order (returned as `maskOrder`);
   * otherwise the base URL as it is.
   */
  method BuildWriteUrl<V>(base: string, merge: bool, fields: Option<map<string, V>>) returns (url: string, maskOrder: seq<string>)
    ensures !(merge && fields.Some?) ==> url == base && maskOrder == []
    ensures merge && fields.Some? ==>
      Enumerates(maskOrder, fields.value.Keys) && url == base + ExistsPrecondition + MaskSuffix(maskOrder)
  {
    url := base;
    maskOrder := [];
    if merge && fields.Some? {
      var prefix := url + ExistsPrecondition;
      url := prefix;
      var keys := fields.value.Keys;
      var remaining := keys;
      while remaining != {}
        invariant remaining <= keys
        invariant forall i, j | 0 <= i < j < |maskOrder| :: maskOrder[i] != maskOrder[j]
        invariant forall k :: k in maskOrder <==> k in keys && k !in remaining
        invariant url == prefix + MaskSuffix(maskOrder)
        decreases remaining
      {
        var f :| f in remaining;
        MaskSuffixAppend(maskOrder, f);
        url := url + "&" + MaskParamName + f;
        maskOrder := maskOrder + [f];
        remaining := remaining - {f};
      }
    }
  }

  /** The query parameters the mask entries for the keys should read as, one per key. */
  function MaskParams(keys: seq<string>): (params: seq<string>)
    ensures |params| == |keys|
    ensures forall i | 0 <= i < |keys| :: params[i] == MaskParamName + keys[i]
  {
    if keys == [] then [] else [MaskParamName + keys[0]] + MaskParams(keys[1..])
  }

  /**
   * What the server reads from the query string: the existence precondition, then exactly one
   * mask parameter per key, in order, and nothing else. This relies on no key containing `&`,
   * since the keys are appended without percent-encoding.
   */
  lemma MaskQueryParameters(keys: seq<string>)
    requires forall i | 0 <= i < |keys| :: '&' !in keys[i]
    ensures var params := SplitOn(ExistsParam + MaskSuffix(keys), '&');
      && |params| == |keys| + 1
      && params[0] == ExistsParam
      && forall i | 0 <= i < |keys| :: params[i + 1] == MaskParamName + keys[i]
  {
    assert '&' !in ExistsParam;
    MaskParametersFrom(ExistsParam, keys);
  }

  lemma ParamFree(k: string)
    requires '&' !in k
    ensures '&' !in MaskParamName + k
  {
    var p := MaskParamName + k;
    forall i | 0 <= i < |p| ensures p[i] != '&' {
      if i >= |MaskParamName| { assert p[i] == k[i - |MaskParamName|]; }
    }
  }

  lemma {:induction false} MaskParametersFrom(head: string, keys: seq<string>)
    requires '&' !in head
    requires forall i | 0 <= i < |keys| :: '&' !in keys[i]
    ensures SplitOn(head + MaskSuffix(keys), '&') == [head] + MaskParams(keys)
    decreases keys
  {
    if keys == [] {
      assert head + MaskSuffix(keys) == head;
      SplitFree(head, '&');
    } else {
      var next := MaskParamName + keys[0];
      var tail := next + MaskSuffix(keys[1..]);
      ParamFree(keys[0]);
      assert head + MaskSuffix(keys) == head + ['&'] + tail;
      SplitAtSeparator(head, tail, '&');
      SplitFree(head, '&');
      MaskParametersFrom(next, keys[1..]);
      assert SplitOn(tail, '&') == [next] + MaskParams(keys[1..]);
      assert MaskParams(keys) == [next] + MaskParams(keys[1..]);
    }
  }

  /** An optional RFC 3339 timestamp of the response: absent stays absent, unparsable fails the write. */
  function ParseTimestamp<D>(field: Option<string>, parseRfc3339: string -> Option<D>, failure: string): (r: Result<Option<D>, FirebaseError>)
    ensures r == Ok(None) <==> field.None?
    ensures r.Err? <==> field.Some? && parseRfc3339(field.value).None?
    ensures r.Err? ==> r.error == Generic(failure)
    ensures r.Ok? && r.value.Some? ==> field.Some? && parseRfc3339(field.value) == r.value
  {
    match field
    case None => Ok(None)
    case Some(f) =>
      match parseRfc3339(f)
      case None => Err(Generic(failure))
      case Some(t) => Ok(Some(t))
  }

  /** The document a reply carries, when it is a 2xx response whose body decodes. */
  function Decoded<V>(reply: SendOutcome, decode: Response -> Result<Document<V>, FirebaseError>): Option<Document<V>>
  {
    if reply.Sent? && IsSuccess(reply.response.status) && decode(reply.response).Ok?
    then Some(decode(reply.response).value) else None
  }

  /** A timestamp field that is absent or parses. */
  predicate Parsable<D>(field: Option<string>, parseRfc3339: string -> Option<D>)
  {
    field.Some? ==> parseRfc3339(field.value).Some?
  }

  /**
   * What a write does with the outcome of its one send: a send failure or a non-2xx status is an
   * error (a retryable status included), otherwise the decoded document's name is reduced to its
   * file name and its timestamps are parsed; each of these steps can fail the write.
   */
  function WriteResponse<V, D>(reply: SendOutcome, context: string, decode: Response -> Result<Document<V>, FirebaseError>, parseRfc3339: string -> Option<D>)
    : (r: Result<WriteResult<D>, FirebaseError>)
    ensures reply.SendFailed? ==> r == Err(Request(reply.reason))
    ensures reply.Sent? && !IsSuccess(reply.response.status) ==>
      r == Err(APIError(reply.response.status, reply.response.body, context))
    ensures reply.Sent? && IsSuccess(reply.response.status) && decode(reply.response).Err? ==>
      r == Err(decode(reply.response).error)
    ensures var doc := Decoded(reply, decode);
      doc.Some? && FileName(doc.value.name).None? ==> r == Err(Generic(NameNotAPath))
    ensures var doc := Decoded(reply, decode);
      (doc.Some? && FileName(doc.value.name).Some? && !Parsable(doc.value.createTime, parseRfc3339)) ==>
        r == Err(Generic(CreateTimeUnparsable))
    ensures var doc := Decoded(reply, decode);
      (doc.Some? && FileName(doc.value.name).Some? && Parsable(doc.value.createTime, parseRfc3339)
       && !Parsable(doc.value.updateTime, parseRfc3339)) ==>
        r == Err(Generic(UpdateTimeUnparsable))
    ensures r.Ok? <==> var doc := Decoded(reply, decode);
      doc.Some? && FileName(doc.value.name).Some?
      && Parsable(doc.value.createTime, parseRfc3339) && Parsable(doc.value.updateTime, parseRfc3339)
    ensures r.Ok? ==>
      var doc := Decoded(reply, decode).value;
      && FileName(doc.name) == Some(r.value.documentId)
      && (r.value.createTime.None? <==> doc.createTime.None?)
      && (r.value.updateTime.None? <==> doc.updateTime.None?)
      && (doc.createTime.Some? ==> r.value.createTime == parseRfc3339(doc.createTime.value))
      && (doc.updateTime.Some? ==> r.value.updateTime == parseRfc3339(doc.updateTime.value))
  {
    match reply
    case SendFailed(reason) => Err(Request(reason))
    case Sent(resp) =>
      match ExtractGoogleApiError(resp, context)
      case Err(e) => Err(e)
      case Ok(resp) =>
        match decode(resp)
        case Err(e) => Err(e)
        case Ok(doc) =>
          match FileName(doc.name)
          case None => Err(Generic(NameNotAPath))
          case Some(documentId) =>
            match ParseTimestamp(doc.createTime, parseRfc3339, CreateTimeUnparsable)
            case Err(e) => Err(e)
            case Ok(createTime) =>
              match ParseTimestamp(doc.updateTime, parseRfc3339, UpdateTimeUnparsable)
              case Err(e) => Err(e)
              case Ok(updateTime) => Ok(WriteResult(createTime, updateTime, documentId))
  }

  /**
   * A successful reply naming the document `<parent>/<id>` with parsable (or no) timestamps
   * gives back `id` as the document id.
   */
  lemma WriteResponseReturnsId<V, D>(reply: SendOutcome, context: string, decode: Response -> Result<Document<V>, FirebaseError>, parseRfc3339: string -> Option<D>, parent: string, id: string)
    requires reply.Sent? && IsSuccess(reply.response.status)
    requires decode(reply.response).Ok? && decode(reply.response).value.name == parent + "/" + id
    requires IsNormalComponent(id)
    requires var doc := decode(reply.response).value;
      && (doc.createTime.Some? ==> parseRfc3339(doc.createTime.value).Some?)
      && (doc.updateTime.Some? ==> parseRfc3339(doc.updateTime.value).Some?)
    ensures WriteResponse(reply, context, decode, parseRfc3339).Ok?
    ensures WriteResponse(reply, context, decode, parseRfc3339).value.documentId == id
  {
    FileNameOfChild(parent, id);
  }

  /** `write`: build the URL and the verb, send once, and shape the reply. */
  method Write<V, D>(
    collectionUrl: string,
    documentUrl: string -> string,
    documentId: Option<string>,
    converted: Result<Document<V>, FirebaseError>,
    options: WriteOptions,
    reply: SendOutcome,
    decode: Response -> Result<Document<V>, FirebaseError>,
    parseRfc3339: string -> Option<D>)
    returns (call: WriteCall<V, D>, maskOrder: seq<string>)
    ensures converted.Err? ==> call == WriteCall(None, Err(converted.error))
    ensures converted.Ok? ==>
      && call.sent.Some?
      && var request := call.sent.value;
      && var base := if documentId.Some? then documentUrl(documentId.value) else collectionUrl;
      && var fields := converted.value.fields;
      && request.body == converted.value
      && (request.verb == PATCH <==> documentId.Some?)
      && (request.verb == POST <==> documentId.None?)
      && (options.merge && fields.Some? ==>
            Enumerates(maskOrder, fields.value.Keys) && request.url == base + ExistsPrecondition + MaskSuffix(maskOrder))
      && (!(options.merge && fields.Some?) ==> request.url == base)
      && call.result == WriteResponse(reply, if documentId.Some? then documentId.value else "", decode, parseRfc3339)
  {
    var url := if documentId.Some? then documentUrl(documentId.value) else collectionUrl;
    maskOrder := [];
    match converted
    case Err(e) =>
      call := WriteCall(None, Err(e));
    case Ok(firebaseDocument) =>
      url, maskOrder := BuildWriteUrl(url, options.merge, firebaseDocument.fields);
      var verb := if documentId.Some? then PATCH else POST;
      var request := HttpRequest(verb, url, firebaseDocument);
      var context := if documentId.Some? then documentId.value else "";
      call := WriteCall(Some(request), WriteResponse(reply, context, decode, parseRfc3339));
  }

  /** `create`: always a POST to the collection URL with the id as the `documentId` parameter. */
  function Create<V, D>(
    collectionUrl: string,
    documentId: string,
    converted: Result<Document<V>, FirebaseError>,
    reply: SendOutcome,
    decode: Response -> Result<Document<V>, FirebaseError>,
    parseRfc3339: string -> Option<D>)
    : (call: WriteCall<V, D>)
    ensures converted.Err? ==> call.sent.None? && call.result == Err(converted.error)
    ensures converted.Ok? ==> call.sent.Some? && call.sent.value.verb == POST && call.sent.value.body == converted.value
    ensures converted.Ok? ==> call.sent.value.url == collectionUrl + "documentId=" + documentId
    ensures converted.Ok? && reply.Sent? && !IsSuccess(reply.response.status) ==>
      call.result == Err(APIError(reply.response.status, reply.response.body, documentId))
    ensures converted.Ok? ==> call.result == WriteResponse(reply, documentId, decode, parseRfc3339)
  {
    var url := collectionUrl + "documentId=" + documentId;
    match converted
    case Err(e) => WriteCall(None, Err(e))
    case Ok(firebaseDocument) =>
      WriteCall(Some(HttpRequest(POST, url, firebaseDocument)), WriteResponse(reply, documentId, decode, parseRfc3339))
  }

  /**
   * A created document whose reply names it `<parent>/<id>` with parsable (or no) timestamps
   * gives back `id`, after exactly one POST carrying the converted document.
   */
  lemma CreateReturnsId<V, D>(
    collectionUrl: string,
    documentId: string,
    converted: Result<Document<V>, FirebaseError>,
    reply: SendOutcome,
    decode: Response -> Result<Document<V>, FirebaseError>,
    parseRfc3339: string -> Option<D>,
    parent: string,
    id: string)
    requires converted.Ok?
    requires reply.Sent? && IsSuccess(reply.response.status)
    requires decode(reply.response).Ok? && decode(reply.response).value.name == parent + "/" + id
    requires IsNormalComponent(id)
    requires var doc := decode(reply.response).value;
      && (doc.createTime.Some? ==> parseRfc3339(doc.createTime.value).Some?)
      && (doc.updateTime.Some? ==> parseRfc3339(doc.updateTime.value).Some?)
    ensures var call := Create(collectionUrl, documentId, converted, reply, decode, parseRfc3339);
      && call.sent == Some(HttpRequest(POST, collectionUrl + "documentId=" + documentId, converted.value))
      && call.result.Ok?
      && call.result.value.documentId == id
  {
    WriteResponseReturnsId(reply, documentId, decode, parseRfc3339, parent, id);
  }
}
