/** The branching of `fetch_zipcodeid_streetnameid_gemeentenaam` over the
    address-match response: a resolved address, a rejection with a message for
    the page, or an exception. */
module AddressMatch {
  import opened Text

  /** The fields read from one element of `adresMatches`. */
  datatype Match = Match(gemeenteObjectId: string, straatnaamObjectId: string, gemeentenaam: string)

  datatype Warning = Warning(message: string)

  /** The response: the status text reported by the HTTP client and the parsed body. */
  datatype Response = Response(status: string, warnings: seq<Warning>, adresMatches: seq<Match>)

  /** The hash the lookup returns: `zipcodeid`, `streetnameid`, `gemeentenaam`. */
  datatype ZipcodeInfo = ZipcodeInfo(zipcodeid: string, streetnameid: string, gemeentenaam: string)

  /** Resolved: the ids of the first match. Rejected: `@error_content` is set and
      the request halts. Crashed: `adresMatches[0]` is `nil`, and indexing it
      raises before anything is logged. */
  datatype Outcome = Resolved(info: ZipcodeInfo) | Rejected(message: string) | Crashed

  const NO_WARNINGS := "no warnings"
  const STATUS_ERROR_PREFIX := "De zoekopdracht kon niet correct worden afgehandeld. HTTP status "

  /** The message shown when the status is not a success. */
  function StatusErrorText(status: string): (t: string)
    ensures Contains(t, status)
    ensures |t| == |STATUS_ERROR_PREFIX| + |status| + 1
  {
    ContainsInfix(STATUS_ERROR_PREFIX, status, ".");
    STATUS_ERROR_PREFIX + status + "."
  }

  /** `include? "200"`: a substring test on the status text. */
  predicate StatusOk(status: string)
  {
    Contains(status, "200")
  }

  function Classify(r: Response): Outcome
  {
    if !StatusOk(r.status) then Rejected(StatusErrorText(r.status))
    else if r.warnings != [] then Rejected(r.warnings[0].message)
    else if r.adresMatches == [] then Crashed
    else
      var m := r.adresMatches[0];
      Resolved(ZipcodeInfo(m.gemeenteObjectId, m.straatnaamObjectId, m.gemeentenaam))
  }

  /** The `api_warning` column of the record the lookup writes; `None` when it
      writes none. */
  function AuditNote(r: Response): Option<string>
  {
    match Classify(r)
    case Resolved(_) => Some(NO_WARNINGS)
    case Rejected(message) => Some(message)
    case Crashed => None
  }

  /** The three outcomes. Success exactly when the status contains "200", there
      are no warnings and there is a match, with the ids of match 0; a "200" with
      warnings surfaces the first warning; any other status surfaces a text that
      contains the status. */
  lemma OutcomeCases(r: Response)
    ensures Classify(r).Resolved? <==> StatusOk(r.status) && r.warnings == [] && r.adresMatches != []
    ensures Classify(r).Resolved? ==>
              Classify(r).info == ZipcodeInfo(r.adresMatches[0].gemeenteObjectId,
                                               r.adresMatches[0].straatnaamObjectId,
                                               r.adresMatches[0].gemeentenaam)
    ensures StatusOk(r.status) && r.warnings != [] ==> Classify(r) == Rejected(r.warnings[0].message)
    ensures !StatusOk(r.status) ==> Classify(r).Rejected? && Contains(Classify(r).message, r.status)
    ensures Classify(r).Crashed? <==> StatusOk(r.status) && r.warnings == [] && r.adresMatches == []
  {
  }

  /** A record is written on every path that does not raise; it carries "no
      warnings" on success and the shown message on a rejection. */
  lemma AuditNoteCases(r: Response)
    ensures AuditNote(r).None? <==> Classify(r).Crashed?
    ensures Classify(r).Resolved? ==> AuditNote(r) == Some(NO_WARNINGS)
    ensures Classify(r).Rejected? ==> AuditNote(r) == Some(Classify(r).message)
    ensures !StatusOk(r.status) ==> Contains(AuditNote(r).value, r.status)
  {
  }

  /** Only the status, the first warning and the first match decide the outcome. */
  lemma OutcomeIgnoresTail(r: Response, s: Response)
    requires r.status == s.status
    requires |r.warnings| == 0 <==> |s.warnings| == 0
    requires r.warnings != [] ==> r.warnings[0] == s.warnings[0]
    requires |r.adresMatches| == 0 <==> |s.adresMatches| == 0
    requires r.adresMatches != [] ==> r.adresMatches[0] == s.adresMatches[0]
    ensures Classify(r) == Classify(s)
  {
  }

  /** A 404 is rejected with the status in the message. */
  lemma NotFoundExample()
    ensures Classify(Response("404", [], [])) ==
            Rejected("De zoekopdracht kon niet correct worden afgehandeld. HTTP status 404.")
  {
    var s := "404";
    assert s[0..3][1] == '0' && "200"[1] == '0';
    assert s[0..3][0] == '4' && "200"[0] == '2';
    assert !OccursAt(s, "200", 0);
    assert forall i: nat :: i > 0 ==> !OccursAt(s, "200", i);
  }
}
