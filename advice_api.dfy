/**
 * The advice route, `POST /advice`: fetches and stores a snapshot like the
 * player route, then asks the generator for advice on it and stores the
 * reply. The completion call, the JSON codec and the clock are parameters.
 */
module AdviceApi {
  import opened Wrappers
  import opened Text
  import opened Failures
  import opened Player
  import opened Json
  import opened Advice
  import opened CocClient
  import opened Repository
  import opened AdviceGenerator
  import opened PlayerApi

  /** The request body: the tag, the war-focus flag (default false) and an optional model override. */
  datatype AdviceRequest = AdviceRequest(tag: string, warFocus: bool, model: Option<string>)

  /** The model used when the request names none. */
  const DefaultModel := "openai/gpt-4-turbo-preview"

  /** `request.model or DefaultModel`: an absent or empty override falls back to the default. */
  function ChooseModel(m: Option<string>): (r: string)
    ensures m.Some? && m.value != "" ==> r == m.value
    ensures m.None? || m.value == "" ==> r == DefaultModel
    ensures r != ""
  {
    if m.Some? && m.value != "" then m.value else DefaultModel
  }

  /**
   * The two handlers of `get_advice`: any `ValueError` (a failed decode or
   * validation) is a 400 carrying its message; every other
   * exception goes through the name chain.
   */
  function AdviceErrorResponse(tag: string, e: Exception): (h: HttpError)
    ensures e.isValueError ==> h == HttpError(400, e.message)
    ensures !e.isValueError ==> h.status == StatusByName(e.typeName)
    ensures !e.isValueError && h.status == 500 ==> h.detail == "Error generating advice: " + e.message
  {
    if e.isValueError then HttpError(400, e.message)
    else
      var status := StatusByName(e.typeName);
      HttpError(status,
        if status == 404 then NotFoundDetail(tag)
        else if status == 503 then MaintenanceDetail
        else if status == 403 then ForbiddenDetail
        else "Error generating advice: " + e.message)
  }

  /**
   * Outside `ValueError`, the two routes answer alike: the same status and,
   * except for the 500 prefix, the same detail.
   */
  lemma RoutesAgree(tag: string, e: Exception)
    requires !e.isValueError
    ensures AdviceErrorResponse(tag, e).status == PlayerErrorResponse(tag, e).status
    ensures AdviceErrorResponse(tag, e).status != 500 ==> AdviceErrorResponse(tag, e) == PlayerErrorResponse(tag, e)
  {
  }

  /** The game API's signals give 404, 503 and 403 on the advice route too. */
  lemma AdviceSignalStatuses(tag: string, m: string)
    ensures AdviceErrorResponse(tag, Raised(FetchOutcome.NotFound(m))) == HttpError(404, NotFoundDetail(tag))
    ensures AdviceErrorResponse(tag, Raised(FetchOutcome.Maintenance(m))) == HttpError(503, MaintenanceDetail)
    ensures AdviceErrorResponse(tag, Raised(FetchOutcome.Forbidden(m))) == HttpError(403, ForbiddenDetail)
  {
    NotFoundStatus(m);
    MaintenanceStatus(m);
    ForbiddenStatus(m);
  }

  /**
   * A reply the generator cannot use never looks like a game-API signal: a
   * bad payload is a 400, a payload of the wrong shape a 500.
   */
  lemma ReplyFailureStatus(tag: string, raw: string, warFocus: bool, decode: Decoder)
    ensures var r := ParseReply(raw, warFocus, decode);
            r.Err? ==> AdviceErrorResponse(tag, r.error).status in {400, 500}
  {
    ParseErrorKinds(raw, warFocus, decode);
    TypeErrorStatus();
    AttributeErrorStatus();
  }

  /**
   * A completion whose text is the JSON of some advice (with
   * no war tips unless asked for) yields exactly that advice and that text.
   */
  lemma GoodReply(p: PlayerSnapshot, warFocus: bool, model: string,
                  complete: Completion, decode: Decoder, raw: string, a: PlayerAdvice)
    requires complete(model, PromptText(p, warFocus)) == Ok(raw)
    requires decode(raw) == Ok(AdviceJson(a)) && (warFocus || a.warTips.None?)
    ensures Generated(PromptText(p, warFocus), warFocus, model, complete, decode) == Ok(Reply(a, raw))
  {
    ParseRoundTrip(raw, a, warFocus, decode);
  }

  /** The row `get_advice` stores for a reply about snapshot `snapshotId`. */
  function StoredAdvice(reply: Reply, snapshotId: nat, model: string, warFocus: bool, id: nat, now: int): (row: AdviceRow)
    ensures row.snapshotId == snapshotId && row.rawResponse == reply.rawResponse
    ensures row.modelUsed == model && (row.warFocus == 1 <==> warFocus)
    ensures row.id == id && row.timestamp == now
  {
    AdviceRow(id, snapshotId, now, reply.rawResponse, model, FocusFlag(warFocus))
  }

  /**
   * The part of `get_advice` after the session: generates advice on the
   * stored snapshot with the chosen model and, when that succeeds, stores the
   * reply against the snapshot's id.
   */
  method AdviseAndStore(request: AdviceRequest, stored: Stored, adviceRepo: AdviceRepository,
                        complete: Completion, decode: Decoder, now: int)
    returns (r: Result<PlayerAdvice, HttpError>)
    requires adviceRepo.Valid()
    modifies adviceRepo
    ensures adviceRepo.Valid()
    ensures var model := ChooseModel(request.model);
            var g := Generated(PromptText(stored.snapshot, request.warFocus), request.warFocus, model, complete, decode);
            && (g.Ok? ==>
                  && r == Ok(g.value.advice)
                  && adviceRepo.rows == old(adviceRepo.rows)
                       + [StoredAdvice(g.value, stored.snapshotId, model, request.warFocus, |old(adviceRepo.rows)| + 1, now)])
            && (g.Err? ==>
                  && r == Err(AdviceErrorResponse(request.tag, g.error))
                  && adviceRepo.rows == old(adviceRepo.rows))
  {
    var model := ChooseModel(request.model);
    var generated := GenerateAdvice(stored.snapshot, request.warFocus, model, complete, decode);
    if generated.Err? {
      return Err(AdviceErrorResponse(request.tag, generated.error));
    }
    var reply := generated.value;
    var row := adviceRepo.SaveAdvice(stored.snapshotId, reply.rawResponse, model, request.warFocus, now);
    assert row == StoredAdvice(reply, stored.snapshotId, model, request.warFocus, |old(adviceRepo.rows)| + 1, now);
    r := Ok(reply.advice);
  }

  /**
   * `get_advice`: inside the client's session, fetches, normalises and stores
   * a snapshot; after closing it, asks for advice with the chosen model and
   * stores the reply against the new snapshot's id. A snapshot stored before
   * the advice failed stays stored.
   */
  method GetAdvice(request: AdviceRequest, outcomes: seq<FetchOutcome>,
                   playerRepo: PlayerRepository, adviceRepo: AdviceRepository, dumps: Encoder,
                   complete: Completion, decode: Decoder, snapshotTime: int, adviceTime: int)
    returns (r: Result<PlayerAdvice, HttpError>, ghost events: seq<ClientEvent>)
    requires MaxRetries <= |outcomes| && playerRepo.Valid() && adviceRepo.Valid()
    modifies playerRepo, adviceRepo
    ensures playerRepo.Valid() && adviceRepo.Valid()
    ensures var fetched := Retry(NormalizeTag(request.tag), outcomes, 0);
            && events == [Login] + fetched.events + [Disconnect]
            && (fetched.result.Err? ==>
                  && r == Err(AdviceErrorResponse(request.tag, fetched.result.error))
                  && playerRepo.rows == old(playerRepo.rows)
                  && adviceRepo.rows == old(adviceRepo.rows))
    ensures var fetched := Retry(NormalizeTag(request.tag), outcomes, 0);
            fetched.result.Ok? ==>
              var snapshotId := |old(playerRepo.rows)| + 1;
              var model := ChooseModel(request.model);
              var snapshot := Normalized(fetched.result.value);
              var g := Generated(PromptText(snapshot, request.warFocus), request.warFocus, model, complete, decode);
              && playerRepo.rows == old(playerRepo.rows) + [StoredSnapshot(fetched.result.value, dumps, snapshotId, snapshotTime)]
              && (g.Ok? ==>
                    && r == Ok(g.value.advice)
                    && adviceRepo.rows == old(adviceRepo.rows)
                         + [StoredAdvice(g.value, snapshotId, model, request.warFocus, |old(adviceRepo.rows)| + 1, adviceTime)])
              && (g.Err? ==>
                    && r == Err(AdviceErrorResponse(request.tag, g.error))
                    && adviceRepo.rows == old(adviceRepo.rows))
  {
    var stored, ev := FetchAndStore(request.tag, outcomes, playerRepo, dumps, snapshotTime);
    events := ev;
    if stored.Err? {
      return Err(AdviceErrorResponse(request.tag, stored.error)), events;
    }
    r := AdviseAndStore(request, stored.value, adviceRepo, complete, decode, adviceTime);
  }
}
