/**
 * The `/api/notifications` routes: each one checks the phone against the
 * Peruvian mobile pattern (and the other body fields for presence), answers 400
 * on the first failure, and otherwise normalises the phone and delegates once to
 * the subscriber store or the SMS service.
 */
module Notifications {
  import opened Common
  import opened Sms
  import Subscribers

  /** An HTTP answer: status, the `success` flag, an optional message and the payload. */
  datatype Reply<T> = Reply(status: nat, success: bool, message: Option<string>, data: Option<T>)

  const InvalidPhoneMessage := "Número de teléfono peruano inválido (+51 9XX XXX XXX)"
  const TestText := "Prueba de SMS desde AgroTech PE. Tu suscripción de SMS funciona correctamente."

  /** `normalizePhone`: a missing phone becomes the empty string, any other loses its whitespace. */
  function NormalizePhone(p: Option<string>): (r: string)
    ensures p.None? ==> r == ""
    ensures p.Some? ==> r == FormatPhoneNumber(p.value)
    ensures forall i :: 0 <= i < |r| ==> !IsSpace(r[i])
  {
    if p.Some? then FormatPhoneNumber(p.value) else ""
  }

  /** `!phone || !phoneRegex.test(phone)` is false. */
  predicate PhoneAccepted(phone: Option<string>)
  {
    Truthy(phone) && ValidPeruvianPhone(phone.value)
  }

  /** The phone gate shared by every endpoint: the normalised phone, or nothing for a 400. */
  function PhoneGate(phone: Option<string>): (r: Option<string>)
    ensures r.Some? <==> PhoneAccepted(phone)
    ensures r.Some? ==> r.value == NormalizePhone(phone)
    ensures r.Some? ==> CanonicalPhone(r.value) && ValidPeruvianPhone(r.value)
  {
    if PhoneAccepted(phone) then
      NormalisedPhoneIsCanonical(phone.value);
      Some(NormalizePhone(phone))
    else None
  }

  /** Spaced and unspaced spellings of one number reach the store as the same key. */
  lemma SpacingDoesNotMatter(a: string, b: string)
    requires ValidPeruvianPhone(a) && ValidPeruvianPhone(b)
    requires StripSpaces(a) == StripSpaces(b)
    ensures PhoneGate(Some(a)) == PhoneGate(Some(b))
    ensures PhoneGate(Some(a)).Some?
  {
  }

  /** The spaced form of a number and its canonical form are one subscriber. */
  lemma CanonicalFormIsSameKey(phone: string)
    requires ValidPeruvianPhone(phone)
    ensures PhoneGate(Some(FormatPhoneNumber(phone))) == PhoneGate(Some(phone))
  {
    NormalisedPhoneIsCanonical(phone);
    assert StripSpaces(FormatPhoneNumber(phone)) == FormatPhoneNumber(phone);
  }

  // ---------------------------------------------------------------------------
  // Configuration and subscriptions

  /** `GET /config`. */
  function ConfigRoute(svc: SmsService): (r: Reply<SmsConfig>)
    ensures r.status == 200 && r.success && r.data == Some(GetConfig(svc))
  {
    Reply(200, true, None, Some(GetConfig(svc)))
  }

  /** `POST /subscribe`: the store is only touched after the gate passes, with the normalised phone. */
  method SubscribeRoute(store: Subscribers.SubscriberStore, phone: Option<string>, name: Option<string>, now: string)
    returns (r: Reply<Subscribers.SubscribeResult>)
    modifies store
    ensures !PhoneAccepted(phone) ==> r == Reply(400, false, Some(InvalidPhoneMessage), None)
    ensures !PhoneAccepted(phone) ==> store.file == old(store.file)
    ensures PhoneAccepted(phone) ==> r.status == 200 && r.success && r.data.Some?
    ensures PhoneAccepted(phone) ==>
      var key := NormalizePhone(phone);
      r.data.value == (if Subscribers.HasPhone(old(store.Records()), key) then Subscribers.AlreadySubscribed(key)
                       else Subscribers.NewSubscriber(Subscribers.Subscriber(
                         key, if name.Some? then name.value else Subscribers.DefaultName, now)))
    ensures PhoneAccepted(phone) ==> store.Records() == Subscribers.AfterSubscribe(
      old(store.Records()), NormalizePhone(phone), if name.Some? then name.value else Subscribers.DefaultName, now)
  {
    var gate := PhoneGate(phone);
    if gate.None? {
      return Reply(400, false, Some(InvalidPhoneMessage), None);
    }
    var result := store.Subscribe(gate.value, name, now);
    r := Reply(200, true, None, Some(result));
  }

  /** `POST /unsubscribe`. */
  method UnsubscribeRoute(store: Subscribers.SubscriberStore, phone: Option<string>)
    returns (r: Reply<Subscribers.UnsubscribeResult>)
    modifies store
    ensures !PhoneAccepted(phone) ==> r == Reply(400, false, Some(InvalidPhoneMessage), None)
    ensures !PhoneAccepted(phone) ==> store.file == old(store.file)
    ensures PhoneAccepted(phone) ==> r.status == 200 && r.success
    ensures PhoneAccepted(phone) ==>
      r.data == Some(Subscribers.UnsubscribeResult(NormalizePhone(phone),
                                                   Subscribers.HasPhone(old(store.Records()), NormalizePhone(phone))))
    ensures PhoneAccepted(phone) ==> store.Records() == Subscribers.RemovePhone(old(store.Records()), NormalizePhone(phone))
  {
    var gate := PhoneGate(phone);
    if gate.None? {
      return Reply(400, false, Some(InvalidPhoneMessage), None);
    }
    var result := store.Unsubscribe(gate.value);
    r := Reply(200, true, None, Some(result));
  }

  /** `GET /status?phone=`. */
  method StatusRoute(store: Subscribers.SubscriberStore, phone: Option<string>)
    returns (r: Reply<Subscribers.Status>)
    ensures !PhoneAccepted(phone) ==> r == Reply(400, false, Some(InvalidPhoneMessage), None)
    ensures PhoneAccepted(phone) ==> r.status == 200 && r.success && r.data.Some?
    ensures PhoneAccepted(phone) ==>
      (r.data.value.SubscribedAs? <==> Subscribers.HasPhone(store.Records(), NormalizePhone(phone)))
    ensures PhoneAccepted(phone) && r.data.value.SubscribedAs? ==>
      var record := r.data.value.record;
      && record.phone == NormalizePhone(phone) && record in store.Records()
      && Subscribers.FindPhone(store.Records(), NormalizePhone(phone)) == Some(record)
    ensures PhoneAccepted(phone) && r.data.value.NotSubscribed? ==>
      r.data.value.phone == NormalizePhone(phone)
  {
    var gate := PhoneGate(phone);
    if gate.None? {
      return Reply(400, false, Some(InvalidPhoneMessage), None);
    }
    var status := store.GetStatus(gate.value);
    r := Reply(200, true, None, Some(status));
  }

  // ---------------------------------------------------------------------------
  // Sending

  /** `POST /test`: the reply is a success whenever the gate passes, whatever the gateway said. */
  function TestRoute(svc: SmsService, phone: Option<string>, reply: GatewayReply, clock: Clock)
    : (r: Reply<SmsResult>)
    ensures !PhoneAccepted(phone) ==> r == Reply(400, false, Some(InvalidPhoneMessage), None)
    ensures PhoneAccepted(phone) ==> r.status == 200 && r.success && r.data.Some?
    ensures PhoneAccepted(phone) ==> r.data.value.smsType == "test" && r.data.value.message == TestText
    ensures PhoneAccepted(phone) ==> r.data.value.phone == NormalizePhone(phone)
  {
    var gate := PhoneGate(phone);
    if gate.None? then Reply(400, false, Some(InvalidPhoneMessage), None)
    else
      StripSpacesIdempotent(phone.value);
      Reply(200, true, Some("SMS de prueba enviado"),
            Some(SendSms(svc, gate.value, TestText, Some("test"), reply, clock)))
  }

  /** A template sender's outcome as the route reports it: a thrown error becomes a 500. */
  function Deliver(sent: Result<SmsResult>, okMessage: string): (r: Reply<SmsResult>)
    ensures sent.Ok? ==> r == Reply(200, true, Some(okMessage), Some(sent.value))
    ensures sent.Err? ==> r == Reply(500, false, Some(sent.error), None)
  {
    match sent
    case Ok(v) => Reply(200, true, Some(okMessage), Some(v))
    case Err(e) => Reply(500, false, Some(e), None)
  }

  const IrrigationMissing := "Teléfono válido (+51 9XX XXX XXX), tipo de cultivo y recomendación son requeridos"
  const WeatherMissing := "Teléfono válido (+51 9XX XXX XXX), tipo de alerta y mensaje son requeridos"
  const PestMissing := "Todos los campos son requeridos: teléfono válido (+51 9XX XXX XXX), tipo de plaga, severidad y recomendación"
  const SolarMissing := "Teléfono válido (+51 9XX XXX XXX), tipo de sistema y fecha de mantenimiento son requeridos"

  /** `POST /irrigation-alert`. */
  function IrrigationAlertRoute(svc: SmsService, phone: Option<string>, cropType: Option<string>,
                                recommendation: Option<string>, reply: GatewayReply, clock: Clock)
    : (r: Reply<SmsResult>)
    ensures r.status == 400 <==> !(PhoneAccepted(phone) && Truthy(cropType) && Truthy(recommendation))
    ensures r.status == 400 ==> r == Reply(400, false, Some(IrrigationMissing), None)
    ensures r.status != 400 ==> r.status == 200 && r.success && r.data.Some?
    ensures r.status != 400 ==> r.data.value.message == IrrigationText(cropType.value, recommendation.value)
  {
    var gate := PhoneGate(phone);
    if gate.None? || !Truthy(cropType) || !Truthy(recommendation) then
      Reply(400, false, Some(IrrigationMissing), None)
    else
      Deliver(SendIrrigationAlert(svc, gate.value, cropType.value, recommendation.value, reply, clock),
              "Alerta de riego enviada")
  }

  /** `POST /weather-alert`. */
  function WeatherAlertRoute(svc: SmsService, phone: Option<string>, alertType: Option<string>,
                             message: Option<string>, reply: GatewayReply, clock: Clock)
    : (r: Reply<SmsResult>)
    ensures r.status == 400 <==> !(PhoneAccepted(phone) && Truthy(alertType) && Truthy(message))
    ensures r.status == 400 ==> r == Reply(400, false, Some(WeatherMissing), None)
    ensures r.status != 400 ==> r.status == 200 && r.success && r.data.Some?
    ensures r.status != 400 ==> r.data.value.message == WeatherText(message.value)
  {
    var gate := PhoneGate(phone);
    if gate.None? || !Truthy(alertType) || !Truthy(message) then
      Reply(400, false, Some(WeatherMissing), None)
    else
      Deliver(SendWeatherAlert(svc, gate.value, alertType.value, message.value, reply, clock),
              "Alerta climática enviada")
  }

  /** `POST /pest-alert`. */
  function PestAlertRoute(svc: SmsService, phone: Option<string>, pestType: Option<string>,
                          severity: Option<string>, recommendation: Option<string>,
                          reply: GatewayReply, clock: Clock)
    : (r: Reply<SmsResult>)
    ensures r.status == 400 <==>
      !(PhoneAccepted(phone) && Truthy(pestType) && Truthy(severity) && Truthy(recommendation))
    ensures r.status == 400 ==> r == Reply(400, false, Some(PestMissing), None)
    ensures r.status != 400 ==> r.status == 200 && r.success && r.data.Some?
    ensures r.status != 400 ==>
      r.data.value.message == PestText(pestType.value, severity.value, recommendation.value)
  {
    var gate := PhoneGate(phone);
    if gate.None? || !Truthy(pestType) || !Truthy(severity) || !Truthy(recommendation) then
      Reply(400, false, Some(PestMissing), None)
    else
      Deliver(SendPestAlert(svc, gate.value, pestType.value, severity.value, recommendation.value, reply, clock),
              "Alerta de plagas enviada")
  }

  /** `POST /solar-maintenance`. */
  function SolarMaintenanceRoute(svc: SmsService, phone: Option<string>, systemType: Option<string>,
                                 nextMaintenance: Option<string>, reply: GatewayReply, clock: Clock)
    : (r: Reply<SmsResult>)
    ensures r.status == 400 <==> !(PhoneAccepted(phone) && Truthy(systemType) && Truthy(nextMaintenance))
    ensures r.status == 400 ==> r == Reply(400, false, Some(SolarMissing), None)
    ensures r.status != 400 ==> r.status == 200 && r.success && r.data.Some?
    ensures r.status != 400 ==> r.data.value.message == SolarText(systemType.value, nextMaintenance.value)
  {
    var gate := PhoneGate(phone);
    if gate.None? || !Truthy(systemType) || !Truthy(nextMaintenance) then
      Reply(400, false, Some(SolarMissing), None)
    else
      Deliver(SendSolarMaintenanceReminder(svc, gate.value, systemType.value, nextMaintenance.value, reply, clock),
              "Recordatorio de mantenimiento enviado")
  }

  // ---------------------------------------------------------------------------
  // History

  /** The longest prefix of decimal digits. */
  function LeadingDigits(s: string): (d: string)
    ensures |d| <= |s| && d == s[..|d|]
    ensures forall i :: 0 <= i < |d| ==> IsDigit(d[i])
    ensures |d| < |s| ==> !IsDigit(s[|d|])
  {
    if s != [] && IsDigit(s[0]) then [s[0]] + LeadingDigits(s[1..]) else []
  }

  function SkipSpaces(s: string): (t: string)
    ensures |t| <= |s| && t == s[|s| - |t|..]
    ensures t != [] ==> !IsSpace(t[0])
  {
    if s != [] && IsSpace(s[0]) then SkipSpaces(s[1..]) else s
  }

  /** The value of the leading digits, or nothing when there are none. */
  function DigitValue(u: string): (v: Option<nat>)
    ensures v.None? <==> u == [] || !IsDigit(u[0])
  {
    var digits := LeadingDigits(u);
    if digits == [] then None else Some(ParseNat(digits))
  }

  /** The value of a hexadecimal digit of either case. */
  function HexDigit(c: char): (v: Option<nat>)
    ensures v.Some? ==> v.value < 16
    ensures IsDigit(c) ==> v == Some(c as int - '0' as int)
  {
    if '0' <= c <= '9' then Some(c as int - '0' as int)
    else if 'a' <= c <= 'f' then Some(c as int - 'a' as int + 10)
    else if 'A' <= c <= 'F' then Some(c as int - 'A' as int + 10)
    else None
  }

  /** The longest prefix of hexadecimal digits. */
  function LeadingHexDigits(s: string): (d: string)
    ensures |d| <= |s| && d == s[..|d|]
    ensures forall i :: 0 <= i < |d| ==> HexDigit(d[i]).Some?
    ensures |d| < |s| ==> HexDigit(s[|d|]).None?
  {
    if s != [] && HexDigit(s[0]).Some? then [s[0]] + LeadingHexDigits(s[1..]) else []
  }

  /** Hexadecimal digits read most significant first. */
  function HexValue(d: string): (v: nat)
    requires forall i :: 0 <= i < |d| ==> HexDigit(d[i]).Some?
    ensures |d| == 1 ==> v == HexDigit(d[0]).value
  {
    if d == [] then 0 else HexValue(d[..|d| - 1]) * 16 + HexDigit(d[|d| - 1]).value
  }

  /** `0x` or `0X`: with no radix given, parseInt then reads base 16. */
  predicate HexPrefix(u: string)
  {
    |u| >= 2 && u[0] == '0' && (u[1] == 'x' || u[1] == 'X')
  }

  /** The unsigned number at the start of `u`: hexadecimal after the prefix, decimal otherwise. */
  function Magnitude(u: string): (v: Option<nat>)
    ensures HexPrefix(u) ==> (v.None? <==> |u| == 2 || HexDigit(u[2]).None?)
    ensures !HexPrefix(u) ==> v == DigitValue(u)
  {
    if HexPrefix(u) then
      var digits := LeadingHexDigits(u[2..]);
      if digits == [] then None else Some(HexValue(digits))
    else DigitValue(u)
  }

  /** What follows the leading whitespace and the sign. */
  function Unsigned(s: string): (u: string)
    ensures |u| <= |s|
  {
    var t := SkipSpaces(s);
    if t != [] && (t[0] == '-' || t[0] == '+') then t[1..] else t
  }

  predicate NegativeSign(s: string)
  {
    SkipSpaces(s) != [] && SkipSpaces(s)[0] == '-'
  }

  /**
   * `parseInt(s)` with no radix: leading whitespace, an optional sign, then
   * hexadecimal digits after `0x`/`0X` or decimal digits; `None` is `NaN`.
   */
  function ParseIntJs(s: string): (n: Option<int>)
    ensures n.None? <==> Magnitude(Unsigned(s)).None?
    ensures n.Some? ==> (if NegativeSign(s) then -n.value else n.value) == Magnitude(Unsigned(s)).value
    ensures n.Some? && !NegativeSign(s) ==> n.value >= 0
  {
    var m := Magnitude(Unsigned(s));
    if m.None? then None
    else if NegativeSign(s) then Some(-(m.value as int))
    else Some(m.value)
  }

  /**
   * parseInt reads back every printed natural number, even with trailing text,
   * unless a zero is followed by an `x`, which makes it a hexadecimal prefix.
   */
  lemma ParseIntReadsNumber(n: nat, suffix: string)
    requires suffix == [] || !IsDigit(suffix[0])
    requires n == 0 ==> suffix == [] || (suffix[0] != 'x' && suffix[0] != 'X')
    ensures ParseIntJs(NatToString(n) + suffix) == Some(n)
  {
    var s := NatToString(n) + suffix;
    DigitValueOfNumber(n, suffix);
    NotHexPrefix(n, suffix);
    assert Magnitude(s) == Some(n);
    SignOfDigits(s);
  }

  /** A minus sign before a string that starts with a digit negates what parseInt reads. */
  lemma MinusNegates(s: string)
    requires s != [] && IsDigit(s[0])
    ensures ParseIntJs("-" + s).Some? <==> ParseIntJs(s).Some?
    ensures ParseIntJs(s).Some? ==> ParseIntJs("-" + s) == Some(-ParseIntJs(s).value)
  {
    SignOfDigits(s);
  }

  /** A digit first: no sign to strip; a minus before it: a negative sign. */
  lemma SignOfDigits(s: string)
    requires s != [] && IsDigit(s[0])
    ensures Unsigned(s) == s && !NegativeSign(s)
    ensures Unsigned("-" + s) == s && NegativeSign("-" + s)
  {
    assert !IsSpace(s[0]) && SkipSpaces(s) == s;
    var m := "-" + s;
    assert m[0] == '-' && !IsSpace(m[0]) && m[1..] == s;
    assert SkipSpaces(m) == m;
  }

  lemma NotHexPrefix(n: nat, suffix: string)
    requires suffix == [] || !IsDigit(suffix[0])
    requires n == 0 ==> suffix == [] || (suffix[0] != 'x' && suffix[0] != 'X')
    ensures !HexPrefix(NatToString(n) + suffix)
  {
    NatToStringRoundTrip(n);
  }

  /** With the prefix, the digits are read in base 16, upper or lower case, after any sign. */
  lemma ParseIntReadsHex()
    ensures ParseIntJs("0x10") == Some(16)
    ensures ParseIntJs(" -0XfF") == Some(-255)
    ensures ParseIntJs("0x") == None && ParseIntJs("0xg") == None
  {
    HexTen();
    HexMinusFF();
    HexNoDigits();
  }

  lemma HexTen()
    ensures ParseIntJs("0x10") == Some(16)
  {
    var s := "0x10";
    assert !IsSpace(s[0]) && s[0] != '-' && s[0] != '+';
    assert Unsigned(s) == s && HexPrefix(s) && !NegativeSign(s);
    var d := s[2..];
    assert d == "10" && HexDigit(d[0]) == Some(1) && HexDigit(d[1]) == Some(0);
    assert LeadingHexDigits(d[1..]) == "0" by {
      assert d[1..] == "0";
      assert LeadingHexDigits(d[1..][1..]) == [];
    }
    assert LeadingHexDigits(d) == d;
    assert d[..1] == "1";
    assert HexValue(d) == 16;
  }

  lemma HexMinusFF()
    ensures ParseIntJs(" -0XfF") == Some(-255)
  {
    var s := " -0XfF";
    assert IsSpace(s[0]) && s[1..] == "-0XfF";
    var t := s[1..];
    assert !IsSpace(t[0]);
    assert SkipSpaces(s) == t;
    assert NegativeSign(s) && Unsigned(s) == t[1..];
    var u := t[1..];
    assert u == "0XfF" && HexPrefix(u);
    var d := u[2..];
    assert d == "fF" && HexDigit(d[0]) == Some(15) && HexDigit(d[1]) == Some(15);
    assert LeadingHexDigits(d[1..]) == "F" by {
      assert d[1..] == "F";
      assert LeadingHexDigits(d[1..][1..]) == [];
    }
    assert LeadingHexDigits(d) == d;
    assert d[..1] == "f";
    assert HexValue(d) == 255;
  }

  lemma HexNoDigits()
    ensures ParseIntJs("0x") == None && ParseIntJs("0xg") == None
  {
    var s, g := "0x", "0xg";
    assert !IsSpace(s[0]) && s[0] != '-' && s[0] != '+';
    assert Unsigned(s) == s && HexPrefix(s) && |s| == 2;
    assert Unsigned(g) == g && HexPrefix(g) && HexDigit(g[2]).None?;
  }

  lemma DigitValueOfNumber(n: nat, suffix: string)
    requires suffix == [] || !IsDigit(suffix[0])
    ensures DigitValue(NatToString(n) + suffix) == Some(n)
    ensures IsDigit((NatToString(n) + suffix)[0])
  {
    var d := NatToString(n);
    var s := d + suffix;
    assert s[0] == d[0];
    LeadingDigitsOf(d, suffix);
    NatToStringRoundTrip(n);
  }

  lemma {:induction false} LeadingDigitsOf(d: string, suffix: string)
    requires forall i :: 0 <= i < |d| ==> IsDigit(d[i])
    requires suffix == [] || !IsDigit(suffix[0])
    ensures LeadingDigits(d + suffix) == d
  {
    if d == [] {
      assert d + suffix == suffix;
    } else {
      assert (d + suffix)[1..] == d[1..] + suffix;
      LeadingDigitsOf(d[1..], suffix);
    }
  }

  /** `GET /history?limit=`: the limit defaults to 10; what parseInt cannot read is `NaN`. */
  function HistoryRoute(limit: Option<string>): (r: Reply<HistoryData>)
    ensures r.status == 200 && r.success && r.data.Some?
    ensures limit.None? ==> r.data.value.limit == Some(10)
    ensures limit.Some? ==> r.data.value.limit == ParseIntJs(limit.value)
    ensures r.data.value.messages == [] && r.data.value.userId == "anonymous"
  {
    var n := if limit.None? then Some(10) else ParseIntJs(limit.value);
    Reply(200, true, None, Some(GetSmsHistory("anonymous", n)))
  }
}
