/**
 * The mock mail backend (`GmailService`). Every method returns a fixed record;
 * the clock readings it embeds are parameters, since they are nondeterministic.
 */
module GmailService {
  import opened Wrappers
  import opened Json

  /**
   * What the clock shows during one call: the first and second results of
   * `new Date().toISOString()` and the result of `Date.now()` in milliseconds.
   */
  datatype Clock = Clock(firstIso: string, secondIso: string, millis: nat)

  datatype EmailSummary = EmailSummary(id: string, subject: string, from: string, date: string, snippet: string)

  /** `id` is whatever `emailId` the caller passed, `undefined` (None) included. */
  datatype EmailDetail = EmailDetail(id: Option<Json>, subject: string, from: string, to: string, date: string, body: string)

  datatype SendReceipt = SendReceipt(id: string, status: string)

  datatype DeleteReceipt = DeleteReceipt(success: bool)

  /** The value of `searchEmails`' `maxResults` parameter once its default is applied. */
  function ServiceMaxResults(maxResults: Option<Json>): Json
  {
    match maxResults
    case Some(m) => m
    case None => JNum(10)
  }

  /** `searchEmails(query, maxResults = 10)`: two fixed summaries, whatever the query and limit. */
  function SearchEmails(query: Option<Json>, maxResults: Option<Json>, clock: Clock): (r: seq<EmailSummary>)
    ensures |r| == 2
    ensures forall i :: 0 <= i < |r| ==> r[i].id != ""
    ensures r[0].id != r[1].id
    ensures r[0].date == clock.firstIso && r[1].date == clock.secondIso
  {
    [ EmailSummary("1", "Test Email 1", "sender1@example.com", clock.firstIso, "This is a test email snippet..."),
      EmailSummary("2", "Test Email 2", "sender2@example.com", clock.secondIso, "Another test email snippet...") ]
  }

  /** `getEmail(emailId)`: a fixed detail record that echoes the requested id. */
  function GetEmail(emailId: Option<Json>, clock: Clock): (r: EmailDetail)
    ensures r.id == emailId
    ensures r.date == clock.firstIso
  {
    EmailDetail(emailId, "Test Email Details", "sender@example.com", "recipient@example.com",
                clock.firstIso, "This is the full email body content...")
  }

  /** Interpolating the (possibly undefined) argument into a log line throws. */
  predicate LogThrows(arg: Option<Json>)
  {
    arg.Some? && ToStringThrows(arg.value)
  }

  /**
   * `sendEmail(to, subject, body)`: logs the recipient and subject, then returns
   * status "sent" and an id `"sent_"` followed by the clock's milliseconds.
   * Logging throws when `to` or `subject` has no string form.
   */
  function SendEmail(to: Option<Json>, subject: Option<Json>, body: Option<Json>, clock: Clock): (r: Result<SendReceipt, string>)
    ensures r.Err? <==> LogThrows(to) || LogThrows(subject)
    ensures r.Err? ==> r.error == ToPrimitiveError
    ensures r.Ok? ==> r.value.status == "sent"
    ensures r.Ok? ==> |r.value.id| > 5 && r.value.id[..5] == "sent_" && r.value.id[5..] == NatToDecimal(clock.millis)
    ensures r.Ok? ==> forall i :: 5 <= i < |r.value.id| ==> '0' <= r.value.id[i] <= '9'
  {
    if LogThrows(to) || LogThrows(subject) then Err(ToPrimitiveError)
    else Ok(SendReceipt("sent_" + NatToDecimal(clock.millis), "sent"))
  }

  /** `deleteEmail(emailId)`: logs the id, then reports success. Logging throws when the id has no string form. */
  function DeleteEmail(emailId: Option<Json>): (r: Result<DeleteReceipt, string>)
    ensures r.Err? <==> LogThrows(emailId)
    ensures r.Err? ==> r.error == ToPrimitiveError
    ensures r.Ok? ==> r.value.success
  {
    if LogThrows(emailId) then Err(ToPrimitiveError) else Ok(DeleteReceipt(true))
  }

  /** An object whose members with an undefined value are dropped, as `JSON.stringify` drops them. */
  function ObjectOf(members: seq<(string, Option<Json>)>): (r: Json)
    ensures r.JObj?
    decreases |members|
  {
    if |members| == 0 then JObj([])
    else
      var rest := ObjectOf(members[1..]).members;
      match members[0].1
      case Some(v) => JObj([(members[0].0, v)] + rest)
      case None => JObj(rest)
  }

  function SummaryJson(e: EmailSummary): Json
  {
    JObj([("id", JStr(e.id)), ("subject", JStr(e.subject)), ("from", JStr(e.from)),
          ("date", JStr(e.date)), ("snippet", JStr(e.snippet))])
  }

  function SummariesJson(es: seq<EmailSummary>): Json
  {
    JArr(seq(|es|, i requires 0 <= i < |es| => SummaryJson(es[i])))
  }

  /** The detail record's members in the order the object literal writes them, `undefined` included. */
  function DetailMembers(e: EmailDetail): seq<(string, Option<Json>)>
  {
    [("id", e.id), ("subject", Some(JStr(e.subject))), ("from", Some(JStr(e.from))),
     ("to", Some(JStr(e.to))), ("date", Some(JStr(e.date))), ("body", Some(JStr(e.body)))]
  }

  function DetailJson(e: EmailDetail): Json
  {
    ObjectOf(DetailMembers(e))
  }

  function SendJson(r: SendReceipt): Json
  {
    JObj([("id", JStr(r.id)), ("status", JStr(r.status))])
  }

  function DeleteJson(r: DeleteReceipt): Json
  {
    JObj([("success", JBool(r.success))])
  }

  /** `ObjectOf` handles the members one at a time, keeping their order. */
  lemma ObjectOfCons(key: string, value: Option<Json>, rest: seq<(string, Option<Json>)>)
    ensures ObjectOf([(key, value)] + rest).members
            == (if value.Some? then [(key, value.value)] else []) + ObjectOf(rest).members
  {
    assert ([(key, value)] + rest)[1..] == rest;
  }

  /** The rendered object keeps exactly the defined members: each of its members is a defined one, and each defined one is kept. */
  lemma {:induction false} ObjectOfMembers(members: seq<(string, Option<Json>)>)
    ensures forall i :: 0 <= i < |ObjectOf(members).members| ==>
              (ObjectOf(members).members[i].0, Some(ObjectOf(members).members[i].1)) in members
    ensures forall i :: 0 <= i < |members| && members[i].1.Some? ==>
              (members[i].0, members[i].1.value) in ObjectOf(members).members
    decreases |members|
  {
    if |members| > 0 {
      ObjectOfMembers(members[1..]);
      forall i | 0 <= i < |members| && members[i].1.Some?
        ensures (members[i].0, members[i].1.value) in ObjectOf(members).members
      {
        if i > 0 { assert members[1..][i - 1] == members[i]; }
      }
    }
  }

  /** The rendered detail record's members, in the order the object literal writes them; an undefined id is dropped. */
  lemma DetailJsonMembers(e: EmailDetail)
    ensures DetailJson(e).members
            == (if e.id.Some? then [("id", e.id.value)] else [])
               + [("subject", JStr(e.subject)), ("from", JStr(e.from)), ("to", JStr(e.to)),
                  ("date", JStr(e.date)), ("body", JStr(e.body))]
  {
    var body := [("body", Some(JStr(e.body)))];
    var date := [("date", Some(JStr(e.date)))] + body;
    var to := [("to", Some(JStr(e.to)))] + date;
    var from := [("from", Some(JStr(e.from)))] + to;
    var subject := [("subject", Some(JStr(e.subject)))] + from;
    assert body == [("body", Some(JStr(e.body)))] + [];
    ObjectOfCons("body", Some(JStr(e.body)), []);
    ObjectOfCons("date", Some(JStr(e.date)), body);
    ObjectOfCons("to", Some(JStr(e.to)), date);
    ObjectOfCons("from", Some(JStr(e.from)), to);
    ObjectOfCons("subject", Some(JStr(e.subject)), from);
    ObjectOfCons("id", e.id, subject);
    assert DetailMembers(e) == [("id", e.id)] + subject;
  }

  /** The rendered detail record has an `id` member exactly when the requested id was defined, and then it is that id. */
  lemma DetailJsonId(e: EmailDetail, v: Json)
    ensures ("id", v) in DetailJson(e).members <==> e.id == Some(v)
  {
    DetailJsonMembers(e);
  }
}
