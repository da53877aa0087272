/**
 * The decision logic of the admin dashboard (server/dashboard.js): the
 * "time since" string, the alert-type display name, the session check and
 * the four form handlers that create or edit clients and locations. Database
 * reads arrive as parameters and the one write a handler makes is returned
 * as a value.
 */
module Dashboard {
  import opened Wrappers
  import opened Text
  import opened Records

  // ---------------------------------------------------------------------
  // generateCalculatedTimeDifferenceString
  // ---------------------------------------------------------------------

  // Durations are in milliseconds and written as literals: a second is 1000,
  // a minute 60000, an hour 3600000 and a day 86400000.

  /** JavaScript's `a % b` for `b > 0`: the remainder takes the sign of the dividend. */
  function JsRemainder(a: int, b: int): (r: int)
    requires b > 0
    ensures a >= 0 ==> r == a % b
    ensures a < 0 ==> -b < r <= 0 && a == b * -((-a) / b) + r
  {
    if a >= 0 then a % b
    else
      assert -a == b * ((-a) / b) + (-a) % b;
      -((-a) % b)
  }

  /** The counts the time string shows; `seconds` is absent when the string omits them. */
  datatype Elapsed = Elapsed(days: int, hours: int, minutes: int, seconds: Option<int>)

  /**
   * The counts for an elapsed time of `d` milliseconds, in closed form: whole
   * days, then hours and minutes within the day and hour, and seconds within
   * the minute only when there are no days and no hours. A negative elapsed
   * time shows only a (non-positive) second count.
   */
  function Decompose(d: int): (e: Elapsed)
    ensures e.seconds.Some? <==> e.days + e.hours == 0
    ensures d >= 0 ==> 0 <= e.days && 0 <= e.hours < 24 && 0 <= e.minutes < 60
    ensures d >= 0 && e.seconds.Some? ==> 0 <= e.seconds.value < 60
  {
    if d >= 0 then
      var days := d / 86400000;
      var hours := (d % 86400000) / 3600000;
      Elapsed(days, hours, (d % 3600000) / 60000, if days + hours == 0 then Some((d % 60000) / 1000) else None)
    else
      Elapsed(0, 0, 0, Some(JsRemainder(d, 60000) / 1000))
  }

  /** A count and its unit word, singular exactly when the count is 1. */
  function UnitText(n: int, singular: string, plural: string): string
  {
    IntToString(n) + " " + (if n == 1 then singular else plural)
  }

  /** The text the dashboard shows for the counts. */
  function Render(e: Elapsed): (r: string)
    ensures EndsWith(r, " ago")
  {
    var shown := UnitText(e.days, "day, ", "days, ") + UnitText(e.hours, "hour, ", "hours, ") + UnitText(e.minutes, "minute", "minutes");
    var counts := if e.seconds.Some? then shown + (", " + UnitText(e.seconds.value, "second", "seconds")) else shown;
    AppendedSuffix(counts, " ago");
    counts + " ago"
  }

  /** Within a day, the remainder by the hour is the remainder by the hour of the whole. */
  lemma DayHourRemainder(d: int)
    requires d >= 0
    ensures (d % 86400000) % 3600000 == d % 3600000
    ensures (d % 86400000) / 3600000 < 24
  {
    var q, r := d / 86400000, d % 86400000;
    assert d == q * 86400000 + r;
    assert d == (24 * q + r / 3600000) * 3600000 + r % 3600000;
  }

  /** Within an hour, the remainder by the minute is the remainder by the minute of the whole. */
  lemma HourMinuteRemainder(d: int)
    requires d >= 0
    ensures (d % 3600000) % 60000 == d % 60000
    ensures (d % 3600000) / 60000 < 60
  {
    var q, r := d / 3600000, d % 3600000;
    assert d == q * 3600000 + r;
    assert d == (60 * q + r / 60000) * 60000 + r % 60000;
  }

  /**
   * `generateCalculatedTimeDifferenceString`, with the database time passed
   * in and kept in milliseconds: each unit is taken off only when at least one
   * whole unit remains, and seconds are appended only when there are no days
   * and no hours.
   */
  method GenerateCalculatedTimeDifferenceString(currentTime: Time, timeToCompare: Time) returns (returnString: string)
    ensures returnString == Render(Decompose(currentTime - timeToCompare))
  {
    var diff := currentTime - timeToCompare;
    ghost var e := Decompose(diff);
    DecomposeSteps(diff);
    var numDays, numHours, numMins := 0, 0, 0;
    returnString := "";
    if diff >= 86400000 {
      numDays := diff / 86400000;
      diff := JsRemainder(diff, 86400000);
    }
    returnString := returnString + UnitText(numDays, "day, ", "days, ");
    if diff >= 3600000 {
      numHours := diff / 3600000;
      diff := JsRemainder(diff, 3600000);
    }
    returnString := returnString + UnitText(numHours, "hour, ", "hours, ");
    if diff >= 60000 {
      numMins := diff / 60000;
    }
    returnString := returnString + UnitText(numMins, "minute", "minutes");
    assert numDays == e.days && numHours == e.hours && numMins == e.minutes;
    ghost var shown := returnString;
    assert "" + UnitText(numDays, "day, ", "days, ") == UnitText(numDays, "day, ", "days, ");
    if numDays + numHours == 0 {
      diff := JsRemainder(diff, 60000);
      var numSecs := diff / 1000;
      assert numSecs == e.seconds.value;
      returnString := returnString + (", " + UnitText(numSecs, "second", "seconds"));
    }
    assert returnString == if e.seconds.Some? then shown + (", " + UnitText(e.seconds.value, "second", "seconds")) else shown;
    returnString := returnString + " ago";
  }

  /** The source's step-by-step reductions reach the closed form of `Decompose`. */
  lemma DecomposeSteps(d: int)
    ensures var afterDays := if d >= 86400000 then JsRemainder(d, 86400000) else d;
      var afterHours := if afterDays >= 3600000 then JsRemainder(afterDays, 3600000) else afterDays;
      var e := Decompose(d);
      && e.days == (if d >= 86400000 then d / 86400000 else 0)
      && e.hours == (if afterDays >= 3600000 then afterDays / 3600000 else 0)
      && e.minutes == (if afterHours >= 60000 then afterHours / 60000 else 0)
      && (e.seconds.Some? <==> e.days + e.hours == 0)
      && (e.seconds.Some? ==> e.seconds.value == JsRemainder(afterHours, 60000) / 1000)
  {
    if d >= 0 {
      DayHourRemainder(d);
      HourMinuteRemainder(d);
      HourMinuteRemainder(d % 86400000);
    }
  }

  /**
   * For a non-negative elapsed time the counts are in range and add back up
   * to the elapsed whole seconds, or whole minutes when seconds are omitted.
   */
  lemma DecomposeReconstructs(d: int)
    requires d >= 0
    ensures var e := Decompose(d);
      && e.days >= 0 && 0 <= e.hours < 24 && 0 <= e.minutes < 60
      && (e.seconds.Some? ==> 0 <= e.seconds.value < 60)
      && (e.seconds.Some? ==> e.days * 86400 + e.hours * 3600 + e.minutes * 60 + e.seconds.value == d / 1000)
      && (e.seconds.None? ==> e.days * 86400 + e.hours * 3600 + e.minutes * 60 == (d / 60000) * 60)
  {
    DayHourRemainder(d);
    HourMinuteRemainder(d);
    var e := Decompose(d);
    assert d == e.days * 86400000 + d % 86400000;
    assert d % 86400000 == e.hours * 3600000 + d % 3600000;
    assert d % 3600000 == e.minutes * 60000 + d % 60000;
  }

  /** A negative elapsed time (a clock ahead of the database) shows zero days, hours and minutes and a second count in -60..0. */
  lemma DecomposeNegative(d: int)
    requires d < 0
    ensures var e := Decompose(d);
      && e.days == 0 && e.hours == 0 && e.minutes == 0
      && e.seconds.Some? && -60 <= e.seconds.value <= 0
      && (-60000 < d ==> e.seconds == Some(d / 1000))
  {
  }

  /** `s` ends with `suffix`. */
  predicate EndsWith(s: string, suffix: string)
  {
    |suffix| <= |s| && s[|s| - |suffix|..] == suffix
  }

  /** Appending `b` makes `b` a suffix. */
  lemma AppendedSuffix(a: string, b: string)
    ensures EndsWith(a + b, b)
  {
    assert (a + b)[|a|..] == b;
  }

  /** A string made of a prefix, a word and " ago" ends with that word and " ago". */
  lemma WordEnding(p: string, word: string)
    ensures EndsWith(p + word + " ago", word + " ago")
    ensures EndsWith(p + word + " ago", " ago")
  {
    assert p + word + " ago" == p + (word + " ago");
    AppendedSuffix(p, word + " ago");
    AppendedSuffix(p + word, " ago");
  }

  /** A minute count followed by " ago" does not end with the seconds unit. */
  lemma MinuteEnding(head: string, minuteWord: string)
    requires |head| >= 1 && head[|head| - 1] == ' '
    requires minuteWord == "minute" || minuteWord == "minutes"
    ensures !EndsWith(head + minuteWord + " ago", "second ago") && !EndsWith(head + minuteWord + " ago", "seconds ago")
  {
    var r := head + minuteWord + " ago";
    assert r[|r| - 10] != 's' && r[|r| - 11] != 's';
    var last10, last11 := r[|r| - 10..], r[|r| - 11..];
    assert last10[0] == r[|r| - 10] && last11[0] == r[|r| - 11];
    assert last10 != "second ago" && last11 != "seconds ago";
  }

  /** With seconds shown, the string ends with the seconds unit and " ago". */
  lemma EndingWithSeconds(e: Elapsed)
    requires e.seconds.Some?
    ensures EndsWith(Render(e), " ago")
    ensures EndsWith(Render(e), if e.seconds.value == 1 then "second ago" else "seconds ago")
  {
    var n := e.seconds.value;
    var shown := UnitText(e.days, "day, ", "days, ") + UnitText(e.hours, "hour, ", "hours, ") + UnitText(e.minutes, "minute", "minutes");
    var word := if n == 1 then "second" else "seconds";
    var u := UnitText(n, "second", "seconds");
    var p := shown + ", " + IntToString(n) + " ";
    assert Render(e) == shown + (", " + u) + " ago";
    Regroup(shown, ", ", IntToString(n), " ", word);
    WordEnding(p, word);
    SecondWords();
  }

  /** Regrouping a concatenation of five strings. */
  lemma Regroup(a: string, b: string, c: string, d: string, w: string)
    ensures a + (b + (c + d + w)) == a + b + c + d + w
  {
  }

  lemma SecondWords()
    ensures "second" + " ago" == "second ago" && "seconds" + " ago" == "seconds ago"
  {
  }

  /** Without seconds, the string ends with the minute unit and " ago", and not with a seconds unit. */
  lemma EndingWithoutSeconds(e: Elapsed)
    requires e.seconds.None?
    ensures EndsWith(Render(e), " ago")
    ensures !EndsWith(Render(e), "second ago") && !EndsWith(Render(e), "seconds ago")
  {
    var head := UnitText(e.days, "day, ", "days, ") + UnitText(e.hours, "hour, ", "hours, ") + IntToString(e.minutes) + " ";
    var minuteWord := if e.minutes == 1 then "minute" else "minutes";
    assert Render(e) == head + minuteWord + " ago";
    WordEnding(head, minuteWord);
    MinuteEnding(head, minuteWord);
  }

  /**
   * The rendered string always ends with " ago", and it ends with the seconds
   * unit exactly when it shows seconds.
   */
  lemma RenderEnding(e: Elapsed)
    ensures EndsWith(Render(e), " ago")
    ensures EndsWith(Render(e), "second ago") || EndsWith(Render(e), "seconds ago") <==> e.seconds.Some?
  {
    if e.seconds.Some? {
      EndingWithSeconds(e);
    } else {
      EndingWithoutSeconds(e);
    }
  }

  /** The time string ends with the seconds unit exactly when there are no days and no hours. */
  lemma SecondsShownWithinAnHour(d: int)
    ensures EndsWith(Render(Decompose(d)), " ago")
    ensures var r := Render(Decompose(d));
      (EndsWith(r, "second ago") || EndsWith(r, "seconds ago")) <==> Decompose(d).days + Decompose(d).hours == 0
  {
    DecomposeSteps(d);
    RenderEnding(Decompose(d));
  }

  /** Each unit word is singular exactly when its count is 1. */
  lemma UnitWordSingular(n: int, singular: string, plural: string)
    requires singular != plural
    ensures UnitText(n, singular, plural) == IntToString(n) + " " + singular <==> n == 1
    ensures UnitText(n, singular, plural) == IntToString(n) + " " + plural <==> n != 1
  {
    var prefix := IntToString(n) + " ";
    assert (prefix + singular)[|prefix|..] == singular;
    assert (prefix + plural)[|prefix|..] == plural;
  }

  // ---------------------------------------------------------------------
  // getAlertTypeDisplayName
  // ---------------------------------------------------------------------

  /** The alert types the dashboard names; every other value of the alert type is `OtherAlertType`. */
  datatype AlertType = SensorDuration | SensorStillness | OtherAlertType

  function GetAlertTypeDisplayName(alertType: AlertType): (displayName: string)
    ensures displayName == "Duration" <==> alertType == SensorDuration
    ensures displayName == "Stillness" <==> alertType == SensorStillness
    ensures displayName == "Unknown" <==> alertType == OtherAlertType
  {
    match alertType
    case SensorDuration => "Duration"
    case SensorStillness => "Stillness"
    case OtherAlertType => "Unknown"
  }

  // ---------------------------------------------------------------------
  // sessionChecker and the admin requests
  // ---------------------------------------------------------------------

  /** An admin request: the session's user, the `user_sid` cookie, the form body. Absent values are `None`. */
  datatype AdminRequest = AdminRequest(sessionUser: Option<string>, userSidCookie: Option<string>, body: map<string, string>)

  /** JavaScript truthiness of an optional string: present and non-empty. */
  predicate Truthy(v: Option<string>)
  {
    v.Some? && v.value != ""
  }

  datatype SessionVerdict = RedirectToLogin | Next

  /** `sessionChecker`: on to the handler only with both a session user and the `user_sid` cookie. */
  function SessionChecker(req: AdminRequest): (verdict: SessionVerdict)
    ensures verdict == Next <==> req.sessionUser.Some? && req.sessionUser.value != ""
                                 && req.userSidCookie.Some? && req.userSidCookie.value != ""
  {
    if !Truthy(req.sessionUser) || !Truthy(req.userSidCookie) then RedirectToLogin else Next
  }

  /**
   * A form field after the validator's `trim()` sanitizer: a missing field
   * reads as empty.
   */
  function Field(body: map<string, string>, name: string): (v: string)
    ensures v == [] <==> name !in body || IsBlank(body[name])
  {
    if name in body then Trim(body[name]) else ""
  }

  /** `body(names).trim().notEmpty()`: every named field is non-blank. */
  predicate AllPresent(body: map<string, string>, names: seq<string>)
  {
    forall k :: 0 <= k < |names| ==> Field(body, names[k]) != ""
  }

  /** Two named fields are present exactly when each of them is. */
  lemma PairPresent(body: map<string, string>, a: string, b: string)
    ensures AllPresent(body, [a, b]) <==> Field(body, a) != "" && Field(body, b) != ""
  {
    var names := [a, b];
    assert names[0] == a && names[1] == b;
  }

  /** An optional client field: `null` when missing or blank, otherwise the value as received. */
  function NullIfBlank(body: map<string, string>, name: string): (v: Option<string>)
    ensures v.None? <==> name !in body || IsBlank(body[name])
    ensures v.Some? ==> v.value == body[name]
  {
    if name in body && body[name] != "" && Trim(body[name]) != "" then Some(body[name]) else None
  }

  /** What a handler answers. */
  datatype Response = Status(code: nat) | Redirect(path: string)

  /** The one database write a successful submission makes. */
  datatype DbWrite =
    | CreateClient(displayName: string, fromPhoneNumber: string, responderPhoneNumber: Option<string>,
                   responderPushId: Option<string>, alertApiKey: Option<string>)
    | UpdateClient(displayName: string, fromPhoneNumber: string, responderPhoneNumber: Option<string>,
                   responderPushId: Option<string>, alertApiKey: Option<string>, id: string)
    | CreateLocation(locationid: string, displayName: string, doorCoreId: string, radarCoreId: string, radarType: string,
                     twilioPhone: string, firmwareStateMachineValue: string, clientId: string)
    | UpdateLocation(displayName: string, doorCoreId: string, radarCoreId: string, radarType: string,
                     fallbackPhones: seq<string>, heartbeatPhones: seq<string>, twilioPhone: string,
                     movementThreshold: string, durationTimer: string, stillnessTimer: string, initialTimer: string,
                     reminderTimer: string, fallbackTimer: string, isActive: bool, firmwareStateMachine: bool,
                     locationid: string, clientId: string)

  datatype Outcome = Outcome(response: Response, write: Option<DbWrite>)

  // ---------------------------------------------------------------------
  // Client forms
  // ---------------------------------------------------------------------

  /**
   * `validateNewClient` / `validateEditClient`: display name and from-number,
   * and either a responder phone or both an alert API key and a push id.
   */
  predicate ClientFormValid(body: map<string, string>)
    ensures ClientFormValid(body) <==>
      && "displayName" in body && !IsBlank(body["displayName"])
      && "fromPhoneNumber" in body && !IsBlank(body["fromPhoneNumber"])
      && (("responderPhoneNumber" in body && !IsBlank(body["responderPhoneNumber"]))
          || ("alertApiKey" in body && !IsBlank(body["alertApiKey"]) && "responderPushId" in body && !IsBlank(body["responderPushId"])))
  {
    PairPresent(body, "displayName", "fromPhoneNumber");
    PairPresent(body, "alertApiKey", "responderPushId");
    AllPresent(body, ["displayName", "fromPhoneNumber"])
    && (Field(body, "responderPhoneNumber") != "" || AllPresent(body, ["alertApiKey", "responderPushId"]))
  }

  /** Another client (not `self`, when given) already has this display name. */
  predicate DisplayNameTaken(clients: seq<Client>, name: string, self: Option<string>)
  {
    exists k :: 0 <= k < |clients| && clients[k].displayName == name && (self.None? || clients[k].id != self.value)
  }

  /** The client the form describes, as `createClient` / `updateClient` receive it. */
  function ClientWrite(body: map<string, string>, id: Option<string>): DbWrite
  {
    var name, from := Field(body, "displayName"), Field(body, "fromPhoneNumber");
    var phone, pushId, apiKey := NullIfBlank(body, "responderPhoneNumber"), NullIfBlank(body, "responderPushId"), NullIfBlank(body, "alertApiKey");
    if id.Some? then UpdateClient(name, from, phone, pushId, apiKey, id.value) else CreateClient(name, from, phone, pushId, apiKey)
  }

  /** The duplicate scan of both client handlers: the first client with this name (other than `self`). */
  method FindDuplicateClient(clients: seq<Client>, name: string, self: Option<string>) returns (found: bool)
    ensures found <==> DisplayNameTaken(clients, name, self)
  {
    for i := 0 to |clients|
      invariant forall j :: 0 <= j < i ==> !(clients[j].displayName == name && (self.None? || clients[j].id != self.value))
    {
      if clients[i].displayName == name && (self.None? || clients[i].id != self.value) {
        return true;
      }
    }
    return false;
  }

  /**
   * `submitNewClient`: 401 without a session, 400 on an invalid form, 409 when
   * the display name is taken, otherwise create the client and redirect to the
   * id the database assigns.
   */
  method SubmitNewClient(req: AdminRequest, clients: seq<Client>, assignedId: string) returns (out: Outcome)
    ensures out.response == Status(401) <==> SessionChecker(req) == RedirectToLogin
    ensures out.response == Status(400) <==> SessionChecker(req) == Next && !ClientFormValid(req.body)
    ensures out.response == Status(409) <==>
      SessionChecker(req) == Next && ClientFormValid(req.body) && DisplayNameTaken(clients, Field(req.body, "displayName"), None)
    ensures out.response.Redirect? <==> out.write.Some?
    ensures out.write.Some? <==>
      SessionChecker(req) == Next && ClientFormValid(req.body) && !DisplayNameTaken(clients, Field(req.body, "displayName"), None)
    ensures out.write.Some? ==> out.write.value == ClientWrite(req.body, None) && out.response.path == "/clients/" + assignedId
    ensures out.response.Status? ==> out.response.code == 401 || out.response.code == 400 || out.response.code == 409
  {
    if !Truthy(req.sessionUser) || !Truthy(req.userSidCookie) {
      return Outcome(Status(401), None);
    }
    if !ClientFormValid(req.body) {
      return Outcome(Status(400), None);
    }
    var taken := FindDuplicateClient(clients, Field(req.body, "displayName"), None);
    if taken {
      return Outcome(Status(409), None);
    }
    out := Outcome(Redirect("/clients/" + assignedId), Some(ClientWrite(req.body, None)));
  }

  /**
   * `submitEditClient`: as for a new client, except that the client being
   * edited does not clash with its own display name.
   */
  method SubmitEditClient(req: AdminRequest, id: string, clients: seq<Client>) returns (out: Outcome)
    ensures out.response == Status(401) <==> SessionChecker(req) == RedirectToLogin
    ensures out.response == Status(400) <==> SessionChecker(req) == Next && !ClientFormValid(req.body)
    ensures out.response == Status(409) <==>
      SessionChecker(req) == Next && ClientFormValid(req.body) && DisplayNameTaken(clients, Field(req.body, "displayName"), Some(id))
    ensures out.response.Redirect? <==> out.write.Some?
    ensures out.write.Some? <==>
      SessionChecker(req) == Next && ClientFormValid(req.body) && !DisplayNameTaken(clients, Field(req.body, "displayName"), Some(id))
    ensures out.write.Some? ==> out.write.value == ClientWrite(req.body, Some(id)) && out.response.path == "/clients/" + id
    ensures out.response.Status? ==> out.response.code == 401 || out.response.code == 400 || out.response.code == 409
  {
    if !Truthy(req.sessionUser) || !Truthy(req.userSidCookie) {
      return Outcome(Status(401), None);
    }
    if !ClientFormValid(req.body) {
      return Outcome(Status(400), None);
    }
    var taken := FindDuplicateClient(clients, Field(req.body, "displayName"), Some(id));
    if taken {
      return Outcome(Status(409), None);
    }
    out := Outcome(Redirect("/clients/" + id), Some(ClientWrite(req.body, Some(id))));
  }

  /** Renaming a client to its own current name never clashes with itself. */
  lemma EditKeepsOwnName(clients: seq<Client>, k: nat)
    requires k < |clients|
    requires forall j :: 0 <= j < |clients| && j != k ==> clients[j].id != clients[k].id
    ensures !DisplayNameTaken(clients, clients[k].displayName, Some(clients[k].id))
            <==> forall j :: 0 <= j < |clients| && j != k ==> clients[j].displayName != clients[k].displayName
  {
    if DisplayNameTaken(clients, clients[k].displayName, Some(clients[k].id)) {
      var j :| 0 <= j < |clients| && clients[j].displayName == clients[k].displayName && clients[j].id != clients[k].id;
      assert j != k;
    }
  }

  // ---------------------------------------------------------------------
  // Location forms
  // ---------------------------------------------------------------------

  const NewLocationFields: seq<string> :=
    ["locationid", "displayName", "doorCoreID", "radarCoreID", "radarType", "twilioPhone", "firmwareStateMachine", "clientId"]

  const EditLocationFields: seq<string> :=
    ["displayName", "doorCoreID", "radarCoreID", "radarType", "fallbackPhones", "heartbeatPhones", "twilioPhone",
     "movementThreshold", "durationTimer", "stillnessTimer", "initialTimer", "reminderTimer", "fallbackTimer",
     "isActive", "firmwareStateMachine", "clientId"]

  /** `db.getClientWithClientId`: the client with this id, or `None` for `null`. */
  function ClientWithId(clients: seq<Client>, id: string): (r: Option<Client>)
    ensures r.Some? ==> r.value in clients && r.value.id == id
    ensures r.None? <==> forall k :: 0 <= k < |clients| ==> clients[k].id != id
  {
    if clients == [] then None
    else if clients[0].id == id then Some(clients[0])
    else ClientWithId(clients[1..], id)
  }

  /** Some existing location already has this id. */
  predicate LocationIdTaken(locations: seq<Location>, id: string)
  {
    exists k :: 0 <= k < |locations| && locations[k].locationid == id
  }

  /** The location the new-location form describes, as `createLocationFromBrowserForm` receives it. */
  function NewLocationWrite(body: map<string, string>): DbWrite
  {
    CreateLocation(Field(body, "locationid"), Field(body, "displayName"), Field(body, "doorCoreID"), Field(body, "radarCoreID"),
                   Field(body, "radarType"), Field(body, "twilioPhone"), Field(body, "firmwareStateMachine"), Field(body, "clientId"))
  }

  /**
   * `submitNewLocation`: 401 without a session, 400 when any of the eight
   * fields is blank, 409 when the location id exists, 400 when the client id
   * is unknown, otherwise create the location and redirect to it.
   */
  method SubmitNewLocation(req: AdminRequest, allLocations: seq<Location>, clients: seq<Client>) returns (out: Outcome)
    ensures out.response == Status(401) <==> SessionChecker(req) == RedirectToLogin
    ensures out.response == Status(409) <==>
      SessionChecker(req) == Next && AllPresent(req.body, NewLocationFields) && LocationIdTaken(allLocations, Field(req.body, "locationid"))
    ensures out.response == Status(400) <==>
      SessionChecker(req) == Next
      && (!AllPresent(req.body, NewLocationFields)
          || (!LocationIdTaken(allLocations, Field(req.body, "locationid")) && ClientWithId(clients, Field(req.body, "clientId")).None?))
    ensures out.response.Redirect? <==> out.write.Some?
    ensures out.write.Some? <==>
      && SessionChecker(req) == Next && AllPresent(req.body, NewLocationFields)
      && !LocationIdTaken(allLocations, Field(req.body, "locationid"))
      && ClientWithId(clients, Field(req.body, "clientId")).Some?
    ensures out.write.Some? ==>
      && out.write.value == NewLocationWrite(req.body)
      && out.response.path == "/locations/" + Field(req.body, "locationid")
    ensures out.response.Status? ==> out.response.code == 401 || out.response.code == 400 || out.response.code == 409
  {
    if !Truthy(req.sessionUser) || !Truthy(req.userSidCookie) {
      return Outcome(Status(401), None);
    }
    if !AllPresent(req.body, NewLocationFields) {
      return Outcome(Status(400), None);
    }
    var locationid := Field(req.body, "locationid");
    for i := 0 to |allLocations|
      invariant forall j :: 0 <= j < i ==> allLocations[j].locationid != locationid
    {
      if allLocations[i].locationid == locationid {
        return Outcome(Status(409), None);
      }
    }
    var client := ClientWithId(clients, Field(req.body, "clientId"));
    if client.None? {
      return Outcome(Status(400), None);
    }
    out := Outcome(Redirect("/locations/" + locationid), Some(NewLocationWrite(req.body)));
  }

  /** `s.split(',').map(phone => phone.trim())`. */
  function PhoneList(s: string): (phones: seq<string>)
    ensures |phones| == |Split(s, ',')|
    ensures forall k :: 0 <= k < |phones| ==> phones[k] == Trim(Split(s, ',')[k]) && ',' !in phones[k]
  {
    var parts := Split(s, ',');
    seq(|parts|, k requires 0 <= k < |parts| => Trim(parts[k]))
  }

  /** The listed numbers, with no whitespace around any of them. */
  lemma PhoneListTrimmed(s: string)
    ensures forall k :: 0 <= k < |PhoneList(s)| ==>
      var p := PhoneList(s)[k];
      p == [] || (!IsWhitespace(p[0]) && !IsWhitespace(p[|p| - 1]))
  {
  }

  /** The location the edit form describes, as `updateLocation` receives it. */
  function EditLocationWrite(body: map<string, string>, locationId: string): DbWrite
  {
    UpdateLocation(Field(body, "displayName"), Field(body, "doorCoreID"), Field(body, "radarCoreID"), Field(body, "radarType"),
                   PhoneList(Field(body, "fallbackPhones")), PhoneList(Field(body, "heartbeatPhones")), Field(body, "twilioPhone"),
                   Field(body, "movementThreshold"), Field(body, "durationTimer"), Field(body, "stillnessTimer"),
                   Field(body, "initialTimer"), Field(body, "reminderTimer"), Field(body, "fallbackTimer"),
                   Field(body, "isActive") == "true", Field(body, "firmwareStateMachine") == "true",
                   locationId, Field(body, "clientId"))
  }

  /**
   * `submitEditLocation`: 401 without a session, 400 when any of the sixteen
   * fields is blank or the client id is unknown, otherwise update the location
   * named by the route and redirect to it. There is no uniqueness check.
   */
  method SubmitEditLocation(req: AdminRequest, locationId: string, clients: seq<Client>) returns (out: Outcome)
    ensures out.response == Status(401) <==> SessionChecker(req) == RedirectToLogin
    ensures out.response == Status(400) <==>
      SessionChecker(req) == Next
      && (!AllPresent(req.body, EditLocationFields) || ClientWithId(clients, Field(req.body, "clientId")).None?)
    ensures out.response.Redirect? <==> out.write.Some?
    ensures out.write.Some? <==>
      SessionChecker(req) == Next && AllPresent(req.body, EditLocationFields) && ClientWithId(clients, Field(req.body, "clientId")).Some?
    ensures out.write.Some? ==>
      && out.write.value == EditLocationWrite(req.body, locationId)
      && out.response.path == "/locations/" + locationId
    ensures out.response.Status? ==> out.response.code == 401 || out.response.code == 400
  {
    if !Truthy(req.sessionUser) || !Truthy(req.userSidCookie) {
      return Outcome(Status(401), None);
    }
    if !AllPresent(req.body, EditLocationFields) {
      return Outcome(Status(400), None);
    }
    var client := ClientWithId(clients, Field(req.body, "clientId"));
    if client.None? {
      return Outcome(Status(400), None);
    }
    out := Outcome(Redirect("/locations/" + locationId), Some(EditLocationWrite(req.body, locationId)));
  }

  /** The edited flags are true exactly for the (trimmed) text "true". */
  lemma EditFlagsExact(body: map<string, string>, locationId: string)
    ensures var w := EditLocationWrite(body, locationId);
      && (w.isActive <==> "isActive" in body && Trim(body["isActive"]) == "true")
      && (w.firmwareStateMachine <==> "firmwareStateMachine" in body && Trim(body["firmwareStateMachine"]) == "true")
  {
  }
}
