/** `add_record_to_database`: every address lookup leaves one row in the
    `addresses` table, tagged with how the request came in. The table is a
    sequence of records; the connection and the SQL are not modelled. */
module Audit {
  import opened Text

  /** Sinatra's `params`: a key is absent, or present with a string value, or
      present without one (`nil`), as Rack parses a bare `?getpickups`. */
  type Params = map<string, Option<string>>

  /** `params[key]` is truthy: the key is present with a value, possibly empty. */
  predicate Given(params: Params, key: string)
  {
    key in params && params[key].Some?
  }

  const WEB := "web"
  const ICS := "ics"
  const UNDEFINED := "undefined"

  /** The `format` column: the web form's `getpickups` wins over `format`. */
  function FormatTag(params: Params): (tag: string)
    ensures tag == WEB <==> Given(params, "getpickups")
    ensures tag == ICS <==> !Given(params, "getpickups") && Given(params, "format")
    ensures tag == UNDEFINED <==> !Given(params, "getpickups") && !Given(params, "format")
  {
    if Given(params, "getpickups") then WEB
    else if Given(params, "format") then ICS
    else UNDEFINED
  }

  /** One row of `addresses`. `created` is never set by the insert and so is not
      part of the record. */
  datatype AuditRecord = AuditRecord(
    postalcode: string,
    streetname: string,
    housenumber: string,
    httpStatus: string,
    apiWarning: string,
    format: string)

  /** The `addresses` table. */
  class AuditLog {
    var tableExists: bool
    var records: seq<AuditRecord>

    constructor ()
      ensures !tableExists && records == []
    {
      tableExists := false;
      records := [];
    }

    /** `create_table` unless the table exists, then `insert`. */
    method Insert(record: AuditRecord)
      modifies this
      ensures tableExists
      ensures records == old(records) + [record]
    {
      if !tableExists {
        tableExists := true;
      }
      records := records + [record];
    }
  }

  /** The record a lookup writes. */
  function RecordFor(params: Params, postalcode: string, streetname: string, housenumber: string,
                     httpStatus: string, apiWarning: string): AuditRecord
  {
    AuditRecord(postalcode, streetname, housenumber, httpStatus, apiWarning, FormatTag(params))
  }

  /** Appends exactly one record carrying the lookup's inputs, the status, the
      warning text and the format tag. */
  method AddRecordToDatabase(log: AuditLog, params: Params, postalcode: string, streetname: string,
                             housenumber: string, httpStatus: string, apiWarning: string)
    modifies log
    ensures log.tableExists
    ensures log.records == old(log.records) + [RecordFor(params, postalcode, streetname, housenumber, httpStatus, apiWarning)]
  {
    var format: string;
    if "getpickups" in params && params["getpickups"].Some? {
      format := WEB;
    } else if "format" in params && params["format"].Some? {
      format := ICS;
    } else {
      format := UNDEFINED;
    }
    log.Insert(AuditRecord(postalcode, streetname, housenumber, httpStatus, apiWarning, format));
  }

  /** The tag is one of three values and depends only on which of the two keys
      carry a value, never on what the values are. */
  lemma FormatTagDependsOnKeys(p: Params, q: Params)
    requires (Given(p, "getpickups") <==> Given(q, "getpickups")) && (Given(p, "format") <==> Given(q, "format"))
    ensures FormatTag(p) == FormatTag(q)
    ensures FormatTag(p) in {WEB, ICS, UNDEFINED}
  {
  }

  /** A web-form request that also asks for `format=ics` is still tagged "web";
      a bare `getpickups` key has no value and does not count. */
  lemma WebWinsOverFormat()
    ensures FormatTag(map["getpickups" := Some(""), "format" := Some("ics")]) == WEB
    ensures FormatTag(map["getpickups" := None, "format" := Some("ics")]) == ICS
    ensures FormatTag(map["format" := Some("ics")]) == ICS
    ensures FormatTag(map["postalcode" := Some("9000")]) == UNDEFINED
  {
  }
}
