/** The webhook `handler`, as a pure function from the configuration, the
    request and the outcomes of the outside calls to the response and the
    ordered trace of calls it makes. Both deployments are modelled:
    `HandleApi` (api/whatsapp.js) and `HandlePages` (pages/api/whatsapp.js). */
module Handler {
  import opened Wrappers
  import opened Text
  import opened NumberMatch
  import Classify
  import opened Entry

  // ------------------------------------------------------------ inputs

  /** The environment variables the decision reads; `None` is an unset
      variable. TIMEZONE and TWILIO_WEBHOOK_URL only feed the clock and the
      signature check, which are inputs here. */
  datatype Env = Env(
    airtableKey: Option<string>, airtableBase: Option<string>, airtableTable: Option<string>,
    twilioSid: Option<string>, twilioToken: Option<string>, twilioNumber: Option<string>,
    twilioValidate: Option<string>)

  /** The request: its method, the `diag` query parameter, the decoded form
      body, and whether the Twilio signature checks out. */
  datatype Request = Request(httpMethod: string, diag: Option<string>, form: map<string, string>, signatureValid: bool)

  /** How an outside call ends: it resolves, or it rejects with an error message. */
  datatype Outcome = Done | Failed(message: string)

  /** What `todayISO(TIMEZONE)` gives: the date when the record is built and
      when the confirmation is written, or the error a zone it does not know
      makes it throw on its first call, before anything is stored. */
  datatype Clock = Dates(recordDate: string, replyDate: string) | ZoneError(message: string)

  /** What the outside world does: the clock, and how the store call, the
      confirmation and the apology end. */
  datatype World = World(clock: Clock, store: Outcome, confirm: Outcome, apology: Outcome)

  // ------------------------------------------------------------ outputs

  /** The object stored in the table: `{ Date, Source, ...fields }`. */
  datatype Payload = Payload(date: string, source: string, fields: Fields)

  /** A call to the outside world, in the order the handler makes it. */
  datatype Effect =
    | Insert(table: string, payload: Payload)
    | Send(sender: string, to: Option<string>, body: string)

  /** The response: a status with a text body, the diagnostics report, or a
      rejected handler promise (when even the apology fails). */
  datatype Reply = Reply(status: nat, body: string) | DiagReport | Crash(message: string)

  datatype Result = Result(reply: Reply, effects: seq<Effect>)

  // ------------------------------------------------------------ constants

  const DefaultTable := "Daily Logs"
  const SourceName := "WhatsApp"
  const UnknownMessage := "Start with \"AM:\" or \"PM:\""
  const ApologyPrefix := "Sorry, couldn't parse it. Use your standard format. Error: "
  const SavedFor := " check-in saved for "
  const OkBody := "OK"
  const ErrBody := "ERR"
  const UpBody := "up"
  const AirtableMissing := "Airtable env vars missing"
  const TwilioMissing := "Twilio env vars missing"
  const InvalidSignature := "Invalid signature"
  /** The check mark ending the confirmation: U+2705 in api/whatsapp.js; in
      pages/api/whatsapp.js the UTF-8 bytes of U+2705 read as Windows-1252. */
  const ApiMark := "\U{2705}"
  const PagesMark := "\U{00E2}\U{0153}\U{2026}"

  // ------------------------------------------------------------ pieces

  /** `!!v` for an environment variable: set and not empty. */
  predicate Present(v: Option<string>) {
    v.Some? && |v.value| > 0
  }

  /** `AIRTABLE_TABLE_NAME = "Daily Logs"`: the default applies only to an unset variable. */
  function TableName(env: Env): (name: string)
    ensures env.airtableTable.None? ==> name == DefaultTable
    ensures env.airtableTable.Some? ==> name == env.airtableTable.value
  {
    env.airtableTable.GetOr(DefaultTable)
  }

  /** `TWILIO_VALIDATE === "true"`, the unset variable counting as "false". */
  predicate Validating(env: Env) {
    env.twilioValidate == Some("true")
  }

  /** `(form.Body || "").trim()`. */
  function BodyText(form: map<string, string>): string {
    if "Body" in form then Trim(form["Body"]) else ""
  }

  /** `form.From`, possibly missing. */
  function Sender(form: map<string, string>): Option<string> {
    if "From" in form then Some(form["From"]) else None
  }

  /** `fields.EntryType`. */
  function Tag(f: Fields): string {
    if f.Morning? then "AM" else "PM"
  }

  function Confirmation(f: Fields, date: string, mark: string): string {
    Tag(f) + SavedFor + date + ". " + mark
  }

  function Apology(message: string): string {
    ApologyPrefix + message
  }

  // ------------------------------------------------------------ the decision

  /** The catch block: one apology to the sender; the handler answers 200
      "ERR", unless the apology itself fails, which nothing catches. */
  function Catch(number: string, to: Option<string>, message: string, world: World, trace: seq<Effect>): (r: Result)
    ensures r.effects == trace + [Send(number, to, Apology(message))]
  {
    var apology := Send(number, to, Apology(message));
    match world.apology
    case Done => Result(Reply(200, ErrBody), trace + [apology])
    case Failed(m) => Result(Crash(m), trace + [apology])
  }

  /** The parser the classification picks, or `None` where the try block
      throws `Start with "AM:" or "PM:"`. */
  function Parsed(text: string): Option<Fields> {
    match Classify.Detect(text)
    case AM => Some(ParseAM(text))
    case PM => Some(ParsePM(text))
    case Unknown => None
  }

  /** The try block once the message is parsed: date the record, store it,
      then confirm; any failure goes to the catch block with its message. */
  function Respond(table: string, number: string, to: Option<string>, parsed: Option<Fields>,
                   world: World, mark: string): Result {
    match parsed
    case None => Catch(number, to, UnknownMessage, world, [])
    case Some(fields) =>
      match world.clock
      case ZoneError(m) => Catch(number, to, m, world, [])
      case Dates(recordDate, replyDate) =>
        var insert := Insert(table, Payload(recordDate, SourceName, fields));
        match world.store
        case Failed(m) => Catch(number, to, m, world, [insert])
        case Done =>
          var confirm := Send(number, to, Confirmation(fields, replyDate, mark));
          match world.confirm
          case Failed(m) => Catch(number, to, m, world, [insert, confirm])
          case Done => Result(Reply(200, OkBody), [insert, confirm])
  }

  /** The POST path, shared by both deployments up to the confirmation's mark:
      configuration guards, the optional signature check, then the try block. */
  function Post(env: Env, req: Request, world: World, mark: string): Result {
    if !Present(env.airtableKey) || !Present(env.airtableBase) then
      Result(Reply(500, AirtableMissing), [])
    else if !Present(env.twilioSid) || !Present(env.twilioToken) || !Present(env.twilioNumber) then
      Result(Reply(500, TwilioMissing), [])
    else if Validating(env) && !req.signatureValid then
      Result(Reply(403, InvalidSignature), [])
    else
      Respond(TableName(env), env.twilioNumber.value, Sender(req.form), Parsed(BodyText(req.form)), world, mark)
  }

  /** api/whatsapp.js: any other method gets 200 "up". */
  function HandleApi(env: Env, req: Request, world: World): Result {
    if req.httpMethod != "POST" then Result(Reply(200, UpBody), [])
    else Post(env, req, world, ApiMark)
  }

  /** pages/api/whatsapp.js: a GET with `diag=1` gets the diagnostics report;
      any other non-POST gets 200 "up". */
  function HandlePages(env: Env, req: Request, world: World): Result {
    if req.httpMethod != "POST" then
      if req.diag == Some("1") then Result(DiagReport, []) else Result(Reply(200, UpBody), [])
    else Post(env, req, world, PagesMark)
  }

  // ------------------------------------------------------------ the stored object

  /** A property value of the stored object. */
  datatype Value = Str(s: string) | Int(n: nat) | Num(d: Decimal)

  /** The columns of the Daily Logs table. */
  datatype Column =
    | Date | Source | EntryType
    | SleepHours | Mood | Energy | Notes
    | TrainingType | RPE | Steps | ProteinG | FiberG | WaterL | CaffeineMg
    | CaffeineAfter2pm | AlcoholUnits | GISymptoms | Supplements | Flags

  /** The property name the object uses for the column. */
  function Name(c: Column): string {
    match c
    case Date => "Date"
    case Source => "Source"
    case EntryType => "EntryType"
    case SleepHours => "SleepHours"
    case Mood => "Mood"
    case Energy => "Energy"
    case Notes => "Notes"
    case TrainingType => "TrainingType"
    case RPE => "RPE"
    case Steps => "Steps"
    case ProteinG => "Protein_g"
    case FiberG => "Fiber_g"
    case WaterL => "Water_L"
    case CaffeineMg => "Caffeine_mg"
    case CaffeineAfter2pm => "CaffeineAfter2pm"
    case AlcoholUnits => "Alcohol_units"
    case GISymptoms => "GI_Symptoms"
    case Supplements => "Supplements"
    case Flags => "Flags"
  }

  const AmColumns: set<Column> := {EntryType, SleepHours, Mood, Energy, Notes}

  const PmColumns: set<Column> := {
    EntryType, TrainingType, RPE, Steps, ProteinG, FiberG, WaterL,
    CaffeineMg, CaffeineAfter2pm, AlcoholUnits, GISymptoms, Supplements, Flags
  }

  function StrOf(o: Option<string>): Option<Value> {
    if o.Some? then Some(Str(o.value)) else None
  }

  function IntOf(o: Option<nat>): Option<Value> {
    if o.Some? then Some(Int(o.value)) else None
  }

  function NumOf(o: Option<Decimal>): Option<Value> {
    if o.Some? then Some(Num(o.value)) else None
  }

  /** The parser's object `r`, property by property. */
  function FieldValue(f: Fields, c: Column): Option<Value> {
    if c == EntryType then Some(Str(Tag(f)))
    else match f
      case Morning(sleepHours, mood, energy, notes) =>
        (match c
         case SleepHours => NumOf(sleepHours)
         case Mood => IntOf(mood)
         case Energy => IntOf(energy)
         case Notes => StrOf(notes)
         case _ => None)
      case Evening(trainingType, rpe, steps, protein, fiber, water, caffeine, after, alcohol, gi, supplements, flags) =>
        (match c
         case TrainingType => StrOf(trainingType)
         case RPE => IntOf(rpe)
         case Steps => IntOf(steps)
         case ProteinG => IntOf(protein)
         case FiberG => IntOf(fiber)
         case WaterL => NumOf(water)
         case CaffeineMg => IntOf(caffeine)
         case CaffeineAfter2pm => StrOf(after)
         case AlcoholUnits => NumOf(alcohol)
         case GISymptoms => StrOf(gi)
         case Supplements => StrOf(supplements)
         case Flags => StrOf(flags)
         case _ => None)
  }

  /** The stored object `{ Date, Source, ...fields }` property by property: a
      property of the spread fields replaces an earlier one of the same name. */
  function Get(p: Payload, c: Column): Option<Value> {
    if FieldValue(p.fields, c).Some? then FieldValue(p.fields, c)
    else if c == Date then Some(Str(p.date))
    else if c == Source then Some(Str(p.source))
    else None
  }

  // ------------------------------------------------------------ what the handler promises

  /** All five credentials the POST path insists on are set. */
  predicate Configured(env: Env) {
    && Present(env.airtableKey) && Present(env.airtableBase)
    && Present(env.twilioSid) && Present(env.twilioToken) && Present(env.twilioNumber)
  }

  /** A POST gets past every guard into the try block. */
  predicate Accepted(env: Env, req: Request) {
    Configured(env) && (!Validating(env) || req.signatureValid)
  }

  /** The entry type of the request's message. */
  function Kind(req: Request): Classify.EntryType {
    Classify.Detect(BodyText(req.form))
  }

  /** The record the handler stores for a message of a known kind, once the
      clock has given its date: the parsed object with the date and source. */
  function Stored(env: Env, req: Request, world: World): Effect
    requires Kind(req) != Classify.Unknown && world.clock.Dates?
  {
    Insert(TableName(env), Payload(world.clock.recordDate, SourceName, Parsed(BodyText(req.form)).value))
  }

  predicate HasInsert(effects: seq<Effect>) {
    exists i: nat :: i < |effects| && effects[i].Insert?
  }

  /** The try block throws exactly for a message of no known kind; otherwise
      it parses with the parser of the detected kind, whose object carries
      that kind as its EntryType. */
  lemma ParsedKind(text: string)
    ensures Parsed(text).None? <==> Classify.Detect(text) == Classify.Unknown
    ensures Classify.Detect(text) == Classify.AM ==> Parsed(text) == Some(ParseAM(text)) && Tag(Parsed(text).value) == "AM"
    ensures Classify.Detect(text) == Classify.PM ==> Parsed(text) == Some(ParsePM(text)) && Tag(Parsed(text).value) == "PM"
  {
    ParseKinds(text);
  }

  /** The AM parser builds a morning object, the PM parser an evening one. */
  lemma ParseKinds(text: string)
    ensures ParseAM(text).Morning? && ParsePM(text).Evening?
  {
  }

  // ------------------------------------------------------------ the try block, for any parse result

  /** Nothing stored for a message of no known kind: one apology naming the
      expected prefixes, then 200 "ERR", or the apology's own failure. */
  lemma RespondUnknown(table: string, number: string, to: Option<string>, world: World, mark: string)
    ensures Respond(table, number, to, None, world, mark).effects == [Send(number, to, Apology(UnknownMessage))]
    ensures Respond(table, number, to, None, world, mark).reply ==
              if world.apology.Done? then Reply(200, ErrBody) else Crash(world.apology.message)
  {
  }

  /** Stored and confirmed: the insert, then the confirmation, then 200 "OK". */
  lemma RespondSuccess(table: string, number: string, to: Option<string>, fields: Fields, world: World, mark: string)
    requires world.clock.Dates? && world.store == Done && world.confirm == Done
    ensures Respond(table, number, to, Some(fields), world, mark) ==
              Result(Reply(200, OkBody), [Insert(table, Payload(world.clock.recordDate, SourceName, fields)),
                                        Send(number, to, Confirmation(fields, world.clock.replyDate, mark))])
  {
  }

  /** A zone the clock does not know: nothing is stored or confirmed, and
      the apology carries the clock's error message. */
  lemma RespondZoneError(table: string, number: string, to: Option<string>, fields: Fields, world: World, mark: string)
    requires world.clock.ZoneError?
    ensures Respond(table, number, to, Some(fields), world, mark).effects == [Send(number, to, Apology(world.clock.message))]
  {
  }

  /** A failed store: the insert was attempted, no confirmation, and the
      apology carries the store's error message. */
  lemma RespondStoreFails(table: string, number: string, to: Option<string>, fields: Fields, world: World, mark: string)
    requires world.clock.Dates? && world.store.Failed?
    ensures Respond(table, number, to, Some(fields), world, mark).effects ==
              [Insert(table, Payload(world.clock.recordDate, SourceName, fields)), Send(number, to, Apology(world.store.message))]
  {
  }

  /** A failed confirmation is caught after the record is stored: the
      apology carries the confirmation's error message. */
  lemma RespondConfirmFails(table: string, number: string, to: Option<string>, fields: Fields, world: World, mark: string)
    requires world.clock.Dates? && world.store == Done && world.confirm.Failed?
    ensures Respond(table, number, to, Some(fields), world, mark).effects ==
              [Insert(table, Payload(world.clock.recordDate, SourceName, fields)),
               Send(number, to, Confirmation(fields, world.clock.replyDate, mark)),
               Send(number, to, Apology(world.confirm.message))]
  {
  }

  /** Which way the try block ends: 200 "OK" exactly when a parsed message
      was dated, stored and confirmed; otherwise the catch block answers 200 "ERR",
      unless its apology fails too. */
  lemma {:induction false} RespondReply(table: string, number: string, to: Option<string>, parsed: Option<Fields>,
                                        world: World, mark: string)
    ensures var r := Respond(table, number, to, parsed, world, mark).reply;
            && (r == Reply(200, OkBody) <==>
                  parsed.Some? && world.clock.Dates? && world.store == Done && world.confirm == Done)
            && (r == Reply(200, ErrBody) <==>
                  && world.apology == Done
                  && (parsed.None? || world.clock.ZoneError? || world.store.Failed? || world.confirm.Failed?))
            && (r.Crash? <==>
                  && world.apology.Failed?
                  && (parsed.None? || world.clock.ZoneError? || world.store.Failed? || world.confirm.Failed?))
            && (r.Crash? ==> r.message == world.apology.message)
  {
    match parsed
    case None =>
      RespondUnknown(table, number, to, world, mark);
    case Some(fields) =>
      if world.clock.ZoneError? {
        assert Respond(table, number, to, parsed, world, mark) == Catch(number, to, world.clock.message, world, []);
      } else if world.store.Failed? {
        assert Respond(table, number, to, parsed, world, mark) ==
               Catch(number, to, world.store.message, world, [Insert(table, Payload(world.clock.recordDate, SourceName, fields))]);
      } else if world.confirm.Failed? {
        assert Respond(table, number, to, parsed, world, mark) ==
               Catch(number, to, world.confirm.message, world,
                     [Insert(table, Payload(world.clock.recordDate, SourceName, fields)),
                      Send(number, to, Confirmation(fields, world.clock.replyDate, mark))]);
      } else {
        RespondSuccess(table, number, to, fields, world, mark);
      }
  }

  /** What the try block calls: a parsed and dated message is inserted
      first, and only then; every other call is a message from the number to the sender;
      one call at least, three at most. */
  lemma {:induction false} RespondEffects(table: string, number: string, to: Option<string>, parsed: Option<Fields>,
                                          world: World, mark: string)
    ensures var e := Respond(table, number, to, parsed, world, mark).effects;
            && 1 <= |e| <= 3
            && (HasInsert(e) <==> parsed.Some? && world.clock.Dates?)
            && (parsed.Some? && world.clock.Dates? ==>
                  e[0] == Insert(table, Payload(world.clock.recordDate, SourceName, parsed.value)))
            && (parsed.None? ==> e == [Send(number, to, Apology(UnknownMessage))])
            && (parsed.Some? && world.clock.ZoneError? ==> e == [Send(number, to, Apology(world.clock.message))])
            && (forall i: nat :: 0 < i < |e| ==> e[i].Send?)
            && (forall i: nat :: i < |e| && e[i].Send? ==> e[i].sender == number && e[i].to == to)
  {
    var e := Respond(table, number, to, parsed, world, mark).effects;
    match parsed
    case None =>
      RespondUnknown(table, number, to, world, mark);
      assert !e[0].Insert?;
    case Some(fields) =>
      if world.clock.ZoneError? {
        RespondZoneError(table, number, to, fields, world, mark);
        assert !e[0].Insert?;
      } else {
        if world.store.Failed? {
          RespondStoreFails(table, number, to, fields, world, mark);
        } else if world.confirm.Failed? {
          RespondConfirmFails(table, number, to, fields, world, mark);
        } else {
          RespondSuccess(table, number, to, fields, world, mark);
        }
        assert e[0].Insert?;
      }
  }

  /** The mark only changes the confirmation's text: the reply, the number
      of calls, the record and the apologies are the same for any two marks. */
  lemma {:induction false} RespondMark(table: string, number: string, to: Option<string>, parsed: Option<Fields>,
                                       world: World, mark: string, mark': string)
    ensures var r := Respond(table, number, to, parsed, world, mark);
            var r' := Respond(table, number, to, parsed, world, mark');
            && r.reply == r'.reply
            && |r.effects| == |r'.effects|
            && forall i: nat :: i < |r.effects| && r.effects[i] != r'.effects[i] ==>
                 i == 1 && parsed.Some? && world.clock.Dates? && world.store == Done
                 && r.effects[i].body == Confirmation(parsed.value, world.clock.replyDate, mark)
                 && r'.effects[i].body == Confirmation(parsed.value, world.clock.replyDate, mark')
  {
    match parsed
    case None =>
      RespondUnknown(table, number, to, world, mark);
      RespondUnknown(table, number, to, world, mark');
    case Some(fields) =>
      RespondReply(table, number, to, parsed, world, mark);
      RespondReply(table, number, to, parsed, world, mark');
      if world.clock.ZoneError? {
        RespondZoneError(table, number, to, fields, world, mark);
        RespondZoneError(table, number, to, fields, world, mark');
      } else if world.store.Failed? {
        RespondStoreFails(table, number, to, fields, world, mark);
        RespondStoreFails(table, number, to, fields, world, mark');
      } else if world.confirm.Failed? {
        RespondConfirmFails(table, number, to, fields, world, mark);
        RespondConfirmFails(table, number, to, fields, world, mark');
      } else {
        RespondSuccess(table, number, to, fields, world, mark);
        RespondSuccess(table, number, to, fields, world, mark');
      }
  }

  // ------------------------------------------------------------ the handler

  /** Any method but POST: 200 "up" before anything else is looked at. */
  lemma ApiNotPost(env: Env, req: Request, world: World)
    requires req.httpMethod != "POST"
    ensures HandleApi(env, req, world) == Result(Reply(200, UpBody), [])
  {
  }

  /** Any method but POST: the diagnostics report exactly for `diag=1`, else
      200 "up"; neither stores nor sends anything. */
  lemma PagesNotPost(env: Env, req: Request, world: World)
    requires req.httpMethod != "POST"
    ensures HandlePages(env, req, world).effects == []
    ensures HandlePages(env, req, world).reply == DiagReport <==> req.diag == Some("1")
    ensures req.diag != Some("1") ==> HandlePages(env, req, world).reply == Reply(200, UpBody)
  {
  }

  /** A POST with a credential missing gets 500, naming Airtable when one of
      its two is missing, and makes no call. */
  lemma MissingConfig(env: Env, req: Request, world: World, mark: string)
    requires !Configured(env)
    ensures Post(env, req, world, mark).effects == []
    ensures Post(env, req, world, mark).reply.Reply? && Post(env, req, world, mark).reply.status == 500
    ensures Post(env, req, world, mark).reply.body == AirtableMissing <==>
              !Present(env.airtableKey) || !Present(env.airtableBase)
  {
  }

  /** With validation on, a bad signature gets 403 and no call. */
  lemma BadSignature(env: Env, req: Request, world: World, mark: string)
    requires Configured(env) && Validating(env) && !req.signatureValid
    ensures Post(env, req, world, mark) == Result(Reply(403, InvalidSignature), [])
  {
  }

  /** Past the guards, the POST path is the try block on the trimmed Body. */
  lemma PostTry(env: Env, req: Request, world: World, mark: string)
    requires Accepted(env, req)
    ensures Present(env.twilioNumber)
    ensures Post(env, req, world, mark) ==
              Respond(TableName(env), env.twilioNumber.value, Sender(req.form), Parsed(BodyText(req.form)), world, mark)
  {
  }

  /** The parse result of a request's message: none exactly for a message of
      no known kind. */
  lemma ParsedNone(req: Request)
    ensures Parsed(BodyText(req.form)).None? <==> Kind(req) == Classify.Unknown
  {
    ParsedKind(BodyText(req.form));
  }

  /** For a message of a known kind: the object of the parser the kind picks,
      and the record built from it once the clock has given its date. */
  lemma StoredFields(env: Env, req: Request, world: World) returns (fields: Fields)
    requires Kind(req) != Classify.Unknown
    ensures fields == if Kind(req) == Classify.AM then ParseAM(BodyText(req.form)) else ParsePM(BodyText(req.form))
    ensures Parsed(BodyText(req.form)) == Some(fields)
    ensures world.clock.Dates? ==> Stored(env, req, world) == Insert(TableName(env), Payload(world.clock.recordDate, SourceName, fields))
  {
    ParsedKind(BodyText(req.form));
    fields := Parsed(BodyText(req.form)).value;
  }

  /** A message of a known kind, stored and confirmed: exactly the insert and
      then the confirmation, and 200 "OK". */
  lemma Success(env: Env, req: Request, world: World, mark: string)
    requires Accepted(env, req)
    requires Kind(req) != Classify.Unknown && world.clock.Dates? && world.store == Done && world.confirm == Done
    ensures var r := Post(env, req, world, mark);
            && r.reply == Reply(200, OkBody)
            && |r.effects| == 2
            && r.effects[0] == Stored(env, req, world)
            && r.effects[1] == Send(env.twilioNumber.value, Sender(req.form),
                                     Confirmation(Stored(env, req, world).payload.fields, world.clock.replyDate, mark))
  {
    PostTry(env, req, world, mark);
    var fields := StoredFields(env, req, world);
    RespondSuccess(TableName(env), env.twilioNumber.value, Sender(req.form), fields, world, mark);
  }

  /** A message of no known kind is never stored: one apology naming the
      expected prefixes, then 200 "ERR" if it went out. */
  lemma UnknownKind(env: Env, req: Request, world: World, mark: string)
    requires Accepted(env, req)
    requires Kind(req) == Classify.Unknown
    ensures Post(env, req, world, mark).effects == [Send(env.twilioNumber.value, Sender(req.form), Apology(UnknownMessage))]
    ensures world.apology == Done ==> Post(env, req, world, mark).reply == Reply(200, ErrBody)
  {
    PostTry(env, req, world, mark);
    ParsedNone(req);
    RespondUnknown(TableName(env), env.twilioNumber.value, Sender(req.form), world, mark);
  }

  /** A zone the clock does not know is caught before the record is stored:
      nothing is inserted or confirmed, and one apology carries the clock's
      error message. */
  lemma ZoneFails(env: Env, req: Request, world: World, mark: string)
    requires Accepted(env, req)
    requires Kind(req) != Classify.Unknown && world.clock.ZoneError?
    ensures Post(env, req, world, mark).effects ==
              [Send(env.twilioNumber.value, Sender(req.form), Apology(world.clock.message))]
    ensures world.apology == Done ==> Post(env, req, world, mark).reply == Reply(200, ErrBody)
  {
    PostTry(env, req, world, mark);
    var fields := StoredFields(env, req, world);
    RespondZoneError(TableName(env), env.twilioNumber.value, Sender(req.form), fields, world, mark);
    RespondReply(TableName(env), env.twilioNumber.value, Sender(req.form), Some(fields), world, mark);
  }

  /** A failed store is caught: the insert was attempted, one apology carries
      the store's error message, and no confirmation is sent. */
  lemma StoreFails(env: Env, req: Request, world: World, mark: string)
    requires Accepted(env, req)
    requires Kind(req) != Classify.Unknown && world.clock.Dates? && world.store.Failed?
    ensures Post(env, req, world, mark).effects ==
              [Stored(env, req, world), Send(env.twilioNumber.value, Sender(req.form), Apology(world.store.message))]
  {
    PostTry(env, req, world, mark);
    var fields := StoredFields(env, req, world);
    RespondStoreFails(TableName(env), env.twilioNumber.value, Sender(req.form), fields, world, mark);
  }

  /** A failed confirmation is caught after the record is already stored:
      the apology carries the confirmation's error message. */
  lemma ConfirmFails(env: Env, req: Request, world: World, mark: string)
    requires Accepted(env, req)
    requires Kind(req) != Classify.Unknown && world.clock.Dates? && world.store == Done && world.confirm.Failed?
    ensures Post(env, req, world, mark).effects ==
              [Stored(env, req, world),
               Send(env.twilioNumber.value, Sender(req.form),
                    Confirmation(Stored(env, req, world).payload.fields, world.clock.replyDate, mark)),
               Send(env.twilioNumber.value, Sender(req.form), Apology(world.confirm.message))]
  {
    PostTry(env, req, world, mark);
    var fields := StoredFields(env, req, world);
    RespondConfirmFails(TableName(env), env.twilioNumber.value, Sender(req.form), fields, world, mark);
  }

  /** The catch block has no catch of its own: a failed apology rejects the handler. */
  lemma ApologyFails(env: Env, req: Request, world: World, mark: string)
    requires Accepted(env, req)
    requires world.apology.Failed?
    requires Kind(req) == Classify.Unknown || world.clock.ZoneError? || world.store.Failed? || world.confirm.Failed?
    ensures Post(env, req, world, mark).reply == Crash(world.apology.message)
  {
    PostTry(env, req, world, mark);
    ParsedNone(req);
    RespondReply(TableName(env), env.twilioNumber.value, Sender(req.form), Parsed(BodyText(req.form)), world, mark);
  }

  /** How a POST ends, for either mark: 200 "OK" exactly when it passes every
      guard and a message of a known kind was dated, stored and confirmed; 200 "ERR"
      exactly when it passes every guard, something in the try block failed,
      and the apology went out. */
  lemma PostReply(env: Env, req: Request, world: World, mark: string)
    ensures var r := Post(env, req, world, mark).reply;
            && (r == Reply(200, OkBody) <==>
                  && Accepted(env, req) && Kind(req) != Classify.Unknown
                  && world.clock.Dates? && world.store == Done && world.confirm == Done)
            && (r == Reply(200, ErrBody) <==>
                  && Accepted(env, req) && world.apology == Done
                  && (Kind(req) == Classify.Unknown || world.clock.ZoneError? || world.store.Failed? || world.confirm.Failed?))
  {
    if Accepted(env, req) {
      PostTry(env, req, world, mark);
      ParsedNone(req);
      RespondReply(TableName(env), env.twilioNumber.value, Sender(req.form), Parsed(BodyText(req.form)), world, mark);
    }
  }

  /** What a POST calls, for either mark: a record is stored exactly when it
      passes every guard, its message is of a known kind and the clock gives
      a date; then it is the
      first call and the only insert; every other call is a message from the
      configured number to the sender; never more than three calls. */
  lemma PostEffects(env: Env, req: Request, world: World, mark: string)
    ensures var e := Post(env, req, world, mark).effects;
            && |e| <= 3
            && (HasInsert(e) <==> Accepted(env, req) && Kind(req) != Classify.Unknown && world.clock.Dates?)
            && (HasInsert(e) ==> e[0] == Stored(env, req, world))
            && (forall i: nat :: 0 < i < |e| ==> e[i].Send?)
            && (forall i: nat :: i < |e| && e[i].Send? ==>
                  Present(env.twilioNumber) && e[i].sender == env.twilioNumber.value && e[i].to == Sender(req.form))
  {
    if Accepted(env, req) {
      PostTry(env, req, world, mark);
      ParsedNone(req);
      if Kind(req) != Classify.Unknown {
        var fields := StoredFields(env, req, world);
      }
      RespondEffects(TableName(env), env.twilioNumber.value, Sender(req.form), Parsed(BodyText(req.form)), world, mark);
    } else {
      MissingOrRefused(env, req, world, mark);
    }
  }

  /** A POST stopped by a guard makes no call. */
  lemma MissingOrRefused(env: Env, req: Request, world: World, mark: string)
    requires !Accepted(env, req)
    ensures Post(env, req, world, mark).effects == []
  {
  }

  /** The two deployments decide every POST alike: the same response, the same
      number of calls, the same record and apologies; only the confirmation's
      mark differs. */
  lemma DeploymentsAgree(env: Env, req: Request, world: World)
    requires req.httpMethod == "POST"
    ensures var a := HandleApi(env, req, world);
            var p := HandlePages(env, req, world);
            && p.reply == a.reply
            && |p.effects| == |a.effects|
            && forall i: nat :: i < |a.effects| && a.effects[i] != p.effects[i] ==>
                 && i == 1 && Kind(req) != Classify.Unknown && world.clock.Dates? && a.effects[i].Send? && p.effects[i].Send?
                 && a.effects[i].body == Confirmation(Stored(env, req, world).payload.fields, world.clock.replyDate, ApiMark)
                 && p.effects[i].body == Confirmation(Stored(env, req, world).payload.fields, world.clock.replyDate, PagesMark)
  {
    if Accepted(env, req) {
      PostTry(env, req, world, ApiMark);
      PostTry(env, req, world, PagesMark);
      ParsedNone(req);
      RespondMark(TableName(env), env.twilioNumber.value, Sender(req.form), Parsed(BodyText(req.form)), world, ApiMark, PagesMark);
    } else {
      MissingOrRefused(env, req, world, ApiMark);
      MissingOrRefused(env, req, world, PagesMark);
    }
  }

  /** A POST without a Body, or with one of only whitespace, is of no known
      kind, so nothing is stored. */
  lemma EmptyBody(env: Env, req: Request, world: World, mark: string)
    requires "Body" !in req.form || Trim(req.form["Body"]) == ""
    ensures Kind(req) == Classify.Unknown
    ensures !HasInsert(Post(env, req, world, mark).effects)
  {
    assert BodyText(req.form) == "";
    Classify.EmptyIsUnknown();
    PostEffects(env, req, world, mark);
  }

  // ------------------------------------------------------------ the stored object, property by property

  /** The parser's object holds EntryType and only the columns of its kind. */
  lemma FieldColumns(f: Fields, c: Column)
    ensures FieldValue(f, EntryType) == Some(Str(Tag(f)))
    ensures FieldValue(f, c).Some? && f.Morning? ==> c in AmColumns
    ensures FieldValue(f, c).Some? && f.Evening? ==> c in PmColumns
  {
  }

  /** The spread never overwrites Date or Source: the parser's object has
      neither property, so the stored object keeps the date and the source,
      and every parsed property unchanged. */
  lemma PayloadSpread(p: Payload, c: Column)
    ensures Get(p, Date) == Some(Str(p.date))
    ensures Get(p, Source) == Some(Str(p.source))
    ensures c != Date && c != Source ==> Get(p, c) == FieldValue(p.fields, c)
  {
    FieldColumns(p.fields, Date);
    FieldColumns(p.fields, Source);
  }

  /** Distinct columns have distinct property names, so no two columns share a property. */
  lemma NamesDistinct(a: Column, b: Column)
    requires a != b
    ensures Name(a) != Name(b)
  {
  }
}

