/** The helpers a calendar request runs through, in the order `get_pickup_dates`
    calls them: resolve the address, build the collections URL (window and
    backend), scrape a secret and get a token, query the collections and filter
    them. Every response from outside comes in as a parameter; the handler keeps
    the instance variables the helpers set and the requests they send. */
module Pipeline {
  import opened Text
  import opened Dates
  import opened Routing
  import opened Window
  import opened Scrape
  import opened Schedule
  import opened Audit
  import opened AddressMatch

  /** The configuration values the helpers read. */
  datatype Config = Config(recycleappBaseUrl: string, recycleappTokenUrl: string, vlaanderenApiUrl: string)

  /** An outgoing GET, with the header values that vary. */
  datatype Outbound =
    | AdresMatchQuery(url: string)
    | PageFetch(url: string)
    | TokenRequest(url: string, secret: Option<string>)
    | CollectionsQuery(url: string, token: string)

  /** How a helper ends: with a value, by `halt` after setting `@error_content`,
      or by an exception. */
  datatype Flow<T> = Done(value: T) | Halted | Failed

  /** What the outside world answers: the address-match response, the body served
      at each address of recycleapp.be, the `accessToken` returned for a secret,
      and the items returned for a collections URL and token. */
  datatype Upstream = Upstream(
    adresMatch: Response,
    page: string -> string,
    accessToken: Option<string> -> string,
    collections: (string, string) -> seq<Item>)

  function AdresMatchUrl(config: Config, postalcode: string, streetname: string): string
  {
    config.vlaanderenApiUrl + "adresmatch?postcode=" + postalcode + "&straatnaam=" + streetname
  }

  /** How the address lookup ends for each outcome. */
  function LookupFlow(o: Outcome): Flow<ZipcodeInfo>
  {
    match o
    case Resolved(info) => Done(info)
    case Rejected(_) => Halted
    case Crashed => Failed
  }

  /** The record the lookup writes, if any. */
  function AuditOf(params: Params, postalcode: string, streetname: string, housenumber: string, r: Response): seq<AuditRecord>
  {
    match AuditNote(r)
    case Some(note) => [RecordFor(params, postalcode, streetname, housenumber, r.status, note)]
    case None => []
  }

  /** The collections URL for a backend and a window. */
  function UrlFor(config: Config, postalcode: string, housenumber: string, info: ZipcodeInfo,
                  backend: string, window: DateWindow): string
  {
    config.recycleappBaseUrl + "?zipcodeId=" + postalcode + "-" + info.zipcodeid
      + "&streetId=" + backend + "-" + info.streetnameid + "&houseNumber=" + housenumber
      + "&fromDate=" + FormatIso(window.from) + "&untilDate=" + FormatIso(window.until) + "&size=100"
  }

  /** The value `construct_recycleapp_url` returns as written: the `return` inside
      the `each` block, or, when no range matches, the value of `each` itself,
      which is the hash it was called on. */
  datatype EachValue = Returned(url: string) | Receiver(table: seq<Route>)

  function ConstructAsWritten(config: Config, postalcode: string, housenumber: string, info: ZipcodeInfo, today: Date): EachValue
    requires Valid(today)
  {
    match BackendFor(ToI(postalcode))
    case Some(backend) => Returned(UrlFor(config, postalcode, housenumber, info, backend, WindowFor(today)))
    case None => Receiver(POSTAL_CODE_MATRIX)
  }

  /** The URL the lookup is meant to produce: none when no range matches. */
  function CollectionUrl(config: Config, postalcode: string, housenumber: string, info: ZipcodeInfo, today: Date): Option<string>
    requires Valid(today)
  {
    match BackendFor(ToI(postalcode))
    case Some(backend) => Some(UrlFor(config, postalcode, housenumber, info, backend, WindowFor(today)))
    case None => None
  }

  /** The secret scraped from the script the landing page points to. */
  function ScrapedSecret(page: string -> string): Option<string>
  {
    Secret(page(ScriptUrl(page(SITE))))
  }

  /** The three requests `fetch_recycleapp_token` sends. */
  function TokenTrace(tokenUrl: string, page: string -> string): seq<Outbound>
  {
    [PageFetch(SITE), PageFetch(ScriptUrl(page(SITE))), TokenRequest(tokenUrl, ScrapedSecret(page))]
  }

  /** What `construct_recycleapp_url` yields: the collections URL (none when no
      range matches) once the address resolved. */
  function UrlFlow(config: Config, postalcode: string, housenumber: string, today: Date, r: Response): Flow<Option<string>>
    requires Valid(today)
  {
    match Classify(r)
    case Resolved(info) => Done(CollectionUrl(config, postalcode, housenumber, info, today))
    case Rejected(_) => Halted
    case Crashed => Failed
  }

  /** What follows the URL step: the requests sent from there on and how the
      call ends. */
  datatype Tail = Tail(result: Flow<seq<Pickup>>, sent: seq<Outbound>)

  /** After a resolved lookup: the token requests, then the collections query,
      which raises without a URL. */
  function AfterLookup(tokenUrl: string, url: Option<string>, up: Upstream): Tail
  {
    var tokenSent := TokenTrace(tokenUrl, up.page);
    match url
    case None => Tail(Failed, tokenSent)
    case Some(u) =>
      var token := up.accessToken(ScrapedSecret(up.page));
      var sent := tokenSent + [CollectionsQuery(u, token)];
      match Normalize(up.collections(u, token))
      case None => Tail(Failed, sent)
      case Some(pickups) => Tail(Done(pickups), sent)
  }

  /** A halt or an exception in the URL step ends the call there. */
  function AfterUrl(tokenUrl: string, url: Flow<Option<string>>, up: Upstream): Tail
  {
    match url
    case Done(u) => AfterLookup(tokenUrl, u, up)
    case Halted => Tail(Halted, [])
    case Failed => Tail(Failed, [])
  }

  /** The end of a whole `get_pickup_dates` call, the requests it sends and the
      audit records it writes. */
  datatype Served = Served(result: Flow<seq<Pickup>>, sent: seq<Outbound>, audit: seq<AuditRecord>)

  function Serve(config: Config, params: Params, today: Date, postalcode: string, streetname: string,
                 housenumber: string, up: Upstream): Served
    requires Valid(today)
  {
    var tail := AfterUrl(config.recycleappTokenUrl, UrlFlow(config, postalcode, housenumber, today, up.adresMatch), up);
    Served(tail.result,
           [AdresMatchQuery(AdresMatchUrl(config, postalcode, streetname))] + tail.sent,
           AuditOf(params, postalcode, streetname, housenumber, up.adresMatch))
  }

  lemma Concatenation<T>(a: seq<T>, b: seq<T>, c: seq<T>)
    ensures a + b + c == a + (b + c)
    ensures b + [] == b
  {
  }

  // ----- The collections URL -----

  /** Where a range matches, the URL carries the address, the backend of that
      range, the first of today's month and 31 December of the year the window
      ends in, then `size=100`; where none matches there is no URL. */
  lemma CollectionUrlSpec(config: Config, postalcode: string, housenumber: string, info: ZipcodeInfo, today: Date)
    requires Valid(today)
    ensures CollectionUrl(config, postalcode, housenumber, info, today).None? <==>
              ToI(postalcode) < 1000 || ToI(postalcode) > 9999
    ensures var n := ToI(postalcode);
            CollectionUrl(config, postalcode, housenumber, info, today).Some? ==>
              && BackendFor(n).Some?
              && (BackendFor(n) == Some(BRUSSELS) <==> n < 2000)
              && (BackendFor(n) == Some(WALLONIA) <==> 4000 <= n < 8000)
              && CollectionUrl(config, postalcode, housenumber, info, today).value ==
                   config.recycleappBaseUrl + "?zipcodeId=" + postalcode + "-" + info.zipcodeid
                   + "&streetId=" + BackendFor(n).value + "-" + info.streetnameid + "&houseNumber=" + housenumber
                   + "&fromDate=" + FormatIso(Date(today.year, today.month, 1))
                   + "&untilDate=" + FormatIso(Date(if today.month == 12 then today.year + 1 else today.year, 12, 31))
                   + "&size=100"
  {
    BackendMapping(ToI(postalcode));
    WindowBounds(today);
  }

  /** The digits of 999, padded to four places. */
  lemma Text999()
    ensures ZeroPad(NatToString(999), 4) == "0999"
  {
    assert NatToString(9) == "9";
    assert NatToString(99) == "99";
  }

  /** As written, a postal code whose `to_i` lies outside every range makes the
      helper return the route table itself instead of a URL: every code from
      "0000" to "0999" is one, "0999" among them. */
  lemma OutOfRangeReturnsTable(config: Config, n: nat, housenumber: string, info: ZipcodeInfo, today: Date)
    requires Valid(today) && n < 1000
    ensures var code := ZeroPad(NatToString(n), 4);
            && ConstructAsWritten(config, code, housenumber, info, today) == Receiver(POSTAL_CODE_MATRIX)
            && CollectionUrl(config, code, housenumber, info, today).None?
            && (n == 999 ==> code == "0999")
  {
    var code := ZeroPad(NatToString(n), 4);
    if n == 999 {
      Text999();
    }
    ToIOfDecimal(n, 4, "");
    assert code + "" == code;
    BackendMapping(n);
  }

  /** As written and as intended agree wherever a range matches; they differ
      exactly for the codes outside every range. */
  lemma AsWrittenDiffersOnlyOutside(config: Config, postalcode: string, housenumber: string, info: ZipcodeInfo, today: Date)
    requires Valid(today)
    ensures ConstructAsWritten(config, postalcode, housenumber, info, today).Receiver? <==>
              ToI(postalcode) < 1000 || ToI(postalcode) > 9999
    ensures ConstructAsWritten(config, postalcode, housenumber, info, today).Returned? ==>
              CollectionUrl(config, postalcode, housenumber, info, today) ==
                Some(ConstructAsWritten(config, postalcode, housenumber, info, today).url)
  {
    BackendMapping(ToI(postalcode));
  }

  // ----- A whole request -----

  /** The address lookup is always the first request; a token is asked for only
      once the address resolved; every lookup that does not raise writes exactly
      one audit record with the inputs, the status and the format tag. */
  lemma ServeOrderAndAudit(config: Config, params: Params, today: Date, postalcode: string, streetname: string,
                           housenumber: string, up: Upstream)
    requires Valid(today)
    ensures var s := Serve(config, params, today, postalcode, streetname, housenumber, up);
            && |s.sent| >= 1
            && s.sent[0] == AdresMatchQuery(AdresMatchUrl(config, postalcode, streetname))
            && ((exists i :: 0 <= i < |s.sent| && s.sent[i].TokenRequest?) <==> Classify(up.adresMatch).Resolved?)
            && |s.audit| <= 1
            && (|s.audit| == 1 <==> !Classify(up.adresMatch).Crashed?)
            && (s.audit != [] ==>
                  s.audit[0] == AuditRecord(postalcode, streetname, housenumber, up.adresMatch.status,
                                            AuditNote(up.adresMatch).value, FormatTag(params)))
  {
    var s := Serve(config, params, today, postalcode, streetname, housenumber, up);
    var lookup := [AdresMatchQuery(AdresMatchUrl(config, postalcode, streetname))];
    var o := Classify(up.adresMatch);
    if o.Resolved? {
      var tail := AfterLookup(config.recycleappTokenUrl, CollectionUrl(config, postalcode, housenumber, o.info, today), up);
      AfterLookupDone(config.recycleappTokenUrl, CollectionUrl(config, postalcode, housenumber, o.info, today), up);
      assert s.sent == lookup + tail.sent;
      assert s.sent[3] == tail.sent[2];
    } else {
      assert s.sent == lookup + [];
      assert s.sent == lookup;
    }
  }

  /** A "200" with warnings stops after the lookup: the request halts, nothing is
      sent to recycleapp.be, and the record carries the first warning. */
  lemma WarningHalts(config: Config, params: Params, today: Date, postalcode: string, streetname: string,
                     housenumber: string, up: Upstream)
    requires Valid(today)
    requires StatusOk(up.adresMatch.status) && up.adresMatch.warnings != []
    ensures var s := Serve(config, params, today, postalcode, streetname, housenumber, up);
            && s.result == Halted
            && s.sent == [AdresMatchQuery(AdresMatchUrl(config, postalcode, streetname))]
            && s.audit == [AuditRecord(postalcode, streetname, housenumber, up.adresMatch.status,
                                       up.adresMatch.warnings[0].message, FormatTag(params))]
  {
    OutcomeCases(up.adresMatch);
  }

  /** After a resolved lookup, pickups come back only when there is a URL; the
      token request is the third request sent from there and the collections
      query with the token for the scraped secret the fourth and last, and the
      pickups are the filtered answer to that query. */
  lemma AfterLookupDone(tokenUrl: string, url: Option<string>, up: Upstream)
    ensures var t := AfterLookup(tokenUrl, url, up);
            && |t.sent| >= 3
            && t.sent[2] == TokenRequest(tokenUrl, ScrapedSecret(up.page))
            && (t.result.Done? ==>
                  && url.Some?
                  && |t.sent| == 4
                  && var token := up.accessToken(ScrapedSecret(up.page));
                     && t.sent[3] == CollectionsQuery(url.value, token)
                     && Normalize(up.collections(url.value, token)) == Some(t.result.value))
  {
  }

  /** A request ends with pickups only when the address resolved, a range
      matched and every collection item's timestamp parses; it then has sent five
      requests, the last for the collections URL with the token obtained for the
      scraped secret, and the pickups are the filtered items of that answer. */
  lemma ServeDone(config: Config, params: Params, today: Date, postalcode: string, streetname: string,
                  housenumber: string, up: Upstream)
    requires Valid(today)
    ensures var s := Serve(config, params, today, postalcode, streetname, housenumber, up);
            var o := Classify(up.adresMatch);
            s.result.Done? ==>
              && o.Resolved?
              && 1000 <= ToI(postalcode) <= 9999
              && |s.sent| == 5
              && var url := CollectionUrl(config, postalcode, housenumber, o.info, today).value;
                 var token := up.accessToken(ScrapedSecret(up.page));
                 && s.sent[4] == CollectionsQuery(url, token)
                 && s.sent[3] == TokenRequest(config.recycleappTokenUrl, ScrapedSecret(up.page))
                 && Normalize(up.collections(url, token)) == Some(s.result.value)
  {
    var s := Serve(config, params, today, postalcode, streetname, housenumber, up);
    var o := Classify(up.adresMatch);
    if s.result.Done? {
      assert o.Resolved?;
      var url := CollectionUrl(config, postalcode, housenumber, o.info, today);
      var tail := AfterLookup(config.recycleappTokenUrl, url, up);
      AfterLookupDone(config.recycleappTokenUrl, url, up);
      CollectionUrlSpec(config, postalcode, housenumber, o.info, today);
      assert s.sent == [AdresMatchQuery(AdresMatchUrl(config, postalcode, streetname))] + tail.sent;
    }
  }

  /** Conversely, once the address resolved to a code in 1000..9999 there is a
      collections URL, and the request ends with pickups exactly when every
      collection item in the answer to that URL and the scraped secret's token
      has a parsable timestamp. */
  lemma ServeSucceeds(config: Config, params: Params, today: Date, postalcode: string, streetname: string,
                      housenumber: string, up: Upstream)
    requires Valid(today)
    ensures var o := Classify(up.adresMatch);
            o.Resolved? && 1000 <= ToI(postalcode) <= 9999 ==>
              && CollectionUrl(config, postalcode, housenumber, o.info, today).Some?
              && var url := CollectionUrl(config, postalcode, housenumber, o.info, today).value;
                 var token := up.accessToken(ScrapedSecret(up.page));
                 (Serve(config, params, today, postalcode, streetname, housenumber, up).result.Done? <==>
                    Normalize(up.collections(url, token)).Some?)
  {
    var o := Classify(up.adresMatch);
    if o.Resolved? && 1000 <= ToI(postalcode) <= 9999 {
      CollectionUrlSpec(config, postalcode, housenumber, o.info, today);
    }
  }

  /** The Sinatra app instance serving one request. */
  class RequestHandler {
    const config: Config
    const params: Params
    const today: Date
    var errorContent: Option<string>
    var zipcodeInfo: Option<ZipcodeInfo>
    var fromdate: Option<string>
    var untildate: Option<string>
    var sent: seq<Outbound>

    constructor (config: Config, params: Params, today: Date)
      ensures this.config == config && this.params == params && this.today == today
      ensures errorContent == None && zipcodeInfo == None && fromdate == None && untildate == None
      ensures sent == []
    {
      this.config := config;
      this.params := params;
      this.today := today;
      errorContent := None;
      zipcodeInfo := None;
      fromdate := None;
      untildate := None;
      sent := [];
    }

    /** `fetch_zipcodeid_streetnameid_gemeentenaam`. */
    method FetchZipcodeidStreetnameidGemeentenaam(log: AuditLog, postalcode: string, streetname: string,
                                                  housenumber: string, response: Response)
      returns (r: Flow<ZipcodeInfo>)
      modifies this, log
      ensures sent == old(sent) + [AdresMatchQuery(AdresMatchUrl(config, postalcode, streetname))]
      ensures r == LookupFlow(Classify(response))
      ensures errorContent == if Classify(response).Rejected? then Some(Classify(response).message) else old(errorContent)
      ensures log.records == old(log.records) + AuditOf(params, postalcode, streetname, housenumber, response)
      ensures log.tableExists == (old(log.tableExists) || AuditNote(response).Some?)
      ensures zipcodeInfo == old(zipcodeInfo) && fromdate == old(fromdate) && untildate == old(untildate)
    {
      sent := sent + [AdresMatchQuery(config.vlaanderenApiUrl + "adresmatch?postcode=" + postalcode + "&straatnaam=" + streetname)];
      var status := response.status;
      if StatusOk(status) {
        if response.warnings == [] {
          if response.adresMatches == [] {
            return Failed;
          }
          var first := response.adresMatches[0];
          var found := ZipcodeInfo(first.gemeenteObjectId, first.straatnaamObjectId, first.gemeentenaam);
          AddRecordToDatabase(log, params, postalcode, streetname, housenumber, status, NO_WARNINGS);
          return Done(found);
        } else {
          errorContent := Some(response.warnings[0].message);
          AddRecordToDatabase(log, params, postalcode, streetname, housenumber, status, response.warnings[0].message);
          return Halted;
        }
      } else {
        errorContent := Some(StatusErrorText(status));
        AddRecordToDatabase(log, params, postalcode, streetname, housenumber, status, StatusErrorText(status));
        return Halted;
      }
    }

    /** `construct_recycleapp_url`: resolve the address, then route it. Where no
        range matches it yields no URL (see `ConstructAsWritten` for what the code
        returns there). */
    method ConstructRecycleappUrl(log: AuditLog, postalcode: string, streetname: string,
                                  housenumber: string, response: Response)
      returns (r: Flow<Option<string>>)
      requires Valid(today)
      modifies this, log
      ensures sent == old(sent) + [AdresMatchQuery(AdresMatchUrl(config, postalcode, streetname))]
      ensures errorContent == if Classify(response).Rejected? then Some(Classify(response).message) else old(errorContent)
      ensures log.records == old(log.records) + AuditOf(params, postalcode, streetname, housenumber, response)
      ensures log.tableExists == (old(log.tableExists) || AuditNote(response).Some?)
      ensures r == UrlFlow(config, postalcode, housenumber, today, response)
      ensures Classify(response).Resolved? ==>
                && zipcodeInfo == Some(Classify(response).info)
                && fromdate == Some(FormatIso(WindowFor(today).from))
                && untildate == Some(FormatIso(WindowFor(today).until))
      ensures !Classify(response).Resolved? ==>
                zipcodeInfo == old(zipcodeInfo) && fromdate == old(fromdate) && untildate == old(untildate)
    {
      var lookup := FetchZipcodeidStreetnameidGemeentenaam(log, postalcode, streetname, housenumber, response);
      if lookup.Halted? {
        return Halted;
      } else if lookup.Failed? {
        return Failed;
      }
      var url := RouteResolved(postalcode, housenumber, lookup.value);
      return Done(url);
    }

    /** The part of `construct_recycleapp_url` after a resolved lookup: store the
        ids, set `@fromdate` and `@untildate` from today's date, then scan the
        matrix for the first range holding the code and build the URL. */
    method RouteResolved(postalcode: string, housenumber: string, info: ZipcodeInfo)
      returns (url: Option<string>)
      requires Valid(today)
      modifies this
      ensures url == CollectionUrl(config, postalcode, housenumber, info, today)
      ensures zipcodeInfo == Some(info)
      ensures fromdate == Some(FormatIso(WindowFor(today).from))
      ensures untildate == Some(FormatIso(WindowFor(today).until))
      ensures sent == old(sent) && errorContent == old(errorContent)
    {
      zipcodeInfo := Some(info);
      var zipcodeid := info.zipcodeid;
      var streetnameid := info.streetnameid;
      SetWindow();
      ghost var window := WindowFor(today);

      var backend := LookupBackend(POSTAL_CODE_MATRIX, ToI(postalcode));
      if backend.Some? {
        url := Some(config.recycleappBaseUrl + "?zipcodeId=" + postalcode + "-" + zipcodeid
          + "&streetId=" + backend.value + "-" + streetnameid + "&houseNumber=" + housenumber
          + "&fromDate=" + fromdate.value + "&untilDate=" + untildate.value + "&size=100");
        assert url.value == UrlFor(config, postalcode, housenumber, info, backend.value, window);
      } else {
        url := None;
      }
    }

    /** Sets `@fromdate` and `@untildate` from today's date. */
    method SetWindow()
      requires Valid(today)
      modifies this
      ensures fromdate == Some(FormatIso(WindowFor(today).from))
      ensures untildate == Some(FormatIso(WindowFor(today).until))
      ensures sent == old(sent) && errorContent == old(errorContent) && zipcodeInfo == old(zipcodeInfo)
    {
      fromdate := Some(FormatIso(BeginningOfMonth(today)));
      var thismonth := TwoDigits(today.month);
      if thismonth == "12" {
        untildate := Some(FormatIso(EndOfYear(NextMonth(today))));
      } else {
        untildate := Some(FormatIso(EndOfYear(today)));
      }
    }

    /** `fetch_recycleapp_token`: fetch the landing page, scrape the script's
        path, fetch the script, scrape the secret and ask for a token with it. A
        failed scrape is not checked: a missing path fetches the site root and a
        missing secret is sent as it is. */
    method FetchRecycleappToken(tokenUrl: string, page: string -> string, accessToken: Option<string> -> string)
      returns (token: string)
      modifies this
      ensures sent == old(sent) + TokenTrace(tokenUrl, page)
      ensures token == accessToken(ScrapedSecret(page))
      ensures errorContent == old(errorContent) && zipcodeInfo == old(zipcodeInfo)
      ensures fromdate == old(fromdate) && untildate == old(untildate)
    {
      sent := sent + [PageFetch(SITE)];
      var indexHtml := page(SITE);
      var mainJsFilename := MainScriptPath(indexHtml);
      var scriptUrl := SITE + (if mainJsFilename.Some? then mainJsFilename.value else "");
      assert scriptUrl == ScriptUrl(indexHtml);
      sent := sent + [PageFetch(scriptUrl)];
      var script := page(scriptUrl);
      var secret := Secret(script);
      sent := sent + [TokenRequest(tokenUrl, secret)];
      token := accessToken(secret);
    }

    /** The rest of `get_pickup_dates` once the lookup resolved: get a token,
        query the collections URL with it and filter the answer. Without a URL
        the query raises. */
    method FetchPickups(url: Option<string>, up: Upstream) returns (r: Flow<seq<Pickup>>)
      modifies this
      ensures r == AfterLookup(config.recycleappTokenUrl, url, up).result
      ensures sent == old(sent) + AfterLookup(config.recycleappTokenUrl, url, up).sent
      ensures errorContent == old(errorContent) && zipcodeInfo == old(zipcodeInfo)
      ensures fromdate == old(fromdate) && untildate == old(untildate)
    {
      var token := FetchRecycleappToken(config.recycleappTokenUrl, up.page, up.accessToken);
      if url.None? {
        return Failed;
      }
      sent := sent + [CollectionsQuery(url.value, token)];
      var items := up.collections(url.value, token);
      var pickups := CollectPickups(items);
      if pickups.None? {
        return Failed;
      }
      return Done(pickups.value);
    }

    /** `get_pickup_dates`. */
    method GetPickupDates(log: AuditLog, postalcode: string, streetname: string, housenumber: string, up: Upstream)
      returns (r: Flow<seq<Pickup>>)
      requires Valid(today)
      modifies this, log
      ensures r == Serve(config, params, today, postalcode, streetname, housenumber, up).result
      ensures sent == old(sent) + Serve(config, params, today, postalcode, streetname, housenumber, up).sent
      ensures log.records == old(log.records) + Serve(config, params, today, postalcode, streetname, housenumber, up).audit
      ensures log.tableExists == (old(log.tableExists) || AuditNote(up.adresMatch).Some?)
      ensures errorContent == if Classify(up.adresMatch).Rejected? then Some(Classify(up.adresMatch).message) else old(errorContent)
      ensures Classify(up.adresMatch).Resolved? ==>
                && zipcodeInfo == Some(Classify(up.adresMatch).info)
                && fromdate == Some(FormatIso(WindowFor(today).from))
                && untildate == Some(FormatIso(WindowFor(today).until))
      ensures !Classify(up.adresMatch).Resolved? ==>
                zipcodeInfo == old(zipcodeInfo) && fromdate == old(fromdate) && untildate == old(untildate)
    {
      ghost var lookup := [AdresMatchQuery(AdresMatchUrl(config, postalcode, streetname))];
      var url := ConstructRecycleappUrl(log, postalcode, streetname, housenumber, up.adresMatch);
      ghost var tail := AfterUrl(config.recycleappTokenUrl, url, up);
      if url.Done? {
        r := FetchPickups(url.value, up);
        Concatenation(old(sent), lookup, tail.sent);
      } else {
        r := if url.Halted? then Halted else Failed;
        Concatenation(old(sent), lookup, []);
      }
    }
  }
}
