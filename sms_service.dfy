/**
 * The SMS service: Peruvian mobile-number validation, whitespace
 * normalisation, the message templates, and `sendSMS`, which simulates the send
 * when no gateway client could be created.
 *
 * The environment variables, whether the gateway client constructor succeeds,
 * the gateway's reply and the clock are inputs.
 */
module Sms {
  import opened Common

  // ---------------------------------------------------------------------------
  // A tiny regular-expression language, enough for the phone patterns

  /** One regex atom: a literal character, `\d`, or `\s?`. */
  datatype Token = Lit(c: char) | Digit | OptSpace

  /** Anchored matching (`^...$`) with backtracking over `\s?`. */
  predicate Match(t: string, p: seq<Token>)
    decreases |t| + |p|
  {
    if p == [] then t == []
    else match p[0]
      case Lit(c) => t != [] && t[0] == c && Match(t[1..], p[1..])
      case Digit => t != [] && IsDigit(t[0]) && Match(t[1..], p[1..])
      case OptSpace => (t != [] && IsSpace(t[0]) && Match(t[1..], p[1..])) || Match(t, p[1..])
  }

  function Digits(n: nat): (p: seq<Token>)
    ensures |p| == n && forall i :: 0 <= i < n ==> p[i] == Digit
  {
    if n == 0 then [] else [Digit] + Digits(n - 1)
  }

  /** `/^\+51\s?9\d{2}\s?\d{3}\s?\d{3}$/`. */
  const PhonePattern: seq<Token> :=
    [Lit('+'), Lit('5'), Lit('1'), OptSpace, Lit('9')] + Digits(2) + [OptSpace] + Digits(3)
    + [OptSpace] + Digits(3)

  /** `validatePeruvianPhone` (also the route-level `phoneRegex` and the controller's copy). */
  predicate ValidPeruvianPhone(phone: string)
  {
    Match(phone, PhonePattern)
  }

  /** `formatPhoneNumber`: all whitespace removed. */
  function FormatPhoneNumber(phone: string): (r: string)
    ensures forall i :: 0 <= i < |r| ==> !IsSpace(r[i])
    ensures StripSpaces(r) == r
  {
    StripSpacesIdempotent(phone);
    StripSpaces(phone)
  }

  // ---------------------------------------------------------------------------
  // What the pattern accepts

  /** No literal of the pattern is whitespace. */
  predicate SpaceFreeLiterals(p: seq<Token>)
  {
    forall i :: 0 <= i < |p| ==> p[i].Lit? ==> !IsSpace(p[i].c)
  }

  /** Whether one non-optional atom accepts one character. */
  predicate Accepts(k: Token, c: char)
  {
    match k
    case Lit(d) => c == d
    case Digit => IsDigit(c)
    case OptSpace => false
  }

  /** The pattern without its optional whitespace. */
  function Erase(p: seq<Token>): (q: seq<Token>)
    ensures forall i :: 0 <= i < |q| ==> !q[i].OptSpace?
  {
    if p == [] then [] else if p[0].OptSpace? then Erase(p[1..]) else [p[0]] + Erase(p[1..])
  }

  /** Matching a string that has no whitespace is position-by-position matching of the erased pattern. */
  lemma {:induction false} MatchSpaceless(t: string, p: seq<Token>)
    requires forall i :: 0 <= i < |t| ==> !IsSpace(t[i])
    ensures Match(t, p) <==> |t| == |Erase(p)| && forall i :: 0 <= i < |t| ==> Accepts(Erase(p)[i], t[i])
    decreases |t| + |p|
  {
    if p == [] {
    } else if p[0].OptSpace? {
      MatchSpaceless(t, p[1..]);
    } else if t == [] {
    } else {
      MatchSpaceless(t[1..], p[1..]);
      var q := Erase(p);
      assert q == [p[0]] + Erase(p[1..]);
      if |t| == |q| && forall i :: 0 <= i < |t| ==> Accepts(q[i], t[i]) {
        assert Accepts(q[0], t[0]);
        forall i | 0 <= i < |t| - 1 ensures Accepts(Erase(p[1..])[i], t[1..][i]) {
          assert Accepts(q[i + 1], t[i + 1]);
        }
      }
      if Match(t, p) {
        forall i | 0 <= i < |t| ensures Accepts(q[i], t[i]) {
          if i > 0 {
            assert Accepts(Erase(p[1..])[i - 1], t[1..][i - 1]);
          }
        }
      }
    }
  }

  /** Removing whitespace from an accepted string leaves an accepted string. */
  lemma {:induction false} MatchStripped(t: string, p: seq<Token>)
    requires SpaceFreeLiterals(p) && Match(t, p)
    ensures Match(StripSpaces(t), p)
    decreases |t| + |p|
  {
    if p == [] {
    } else {
      assert SpaceFreeLiterals(p[1..]) by {
        forall i | 0 <= i < |p[1..]| ensures p[1..][i].Lit? ==> !IsSpace(p[1..][i].c) {
          assert p[1..][i] == p[i + 1];
        }
      }
      match p[0]
      case OptSpace =>
        if t != [] && IsSpace(t[0]) && Match(t[1..], p[1..]) {
          MatchStripped(t[1..], p[1..]);
        } else {
          MatchStripped(t, p[1..]);
        }
      case Lit(c) =>
        assert !IsSpace(c);
        MatchStripped(t[1..], p[1..]);
      case Digit =>
        MatchStripped(t[1..], p[1..]);
    }
  }

  /** The erased phone pattern, written out. */
  lemma ErasedPhonePattern()
    ensures Erase(PhonePattern) == [Lit('+'), Lit('5'), Lit('1'), Lit('9')] + Digits(8)
  {
    var d2, d3 := Digits(2), Digits(3);
    var pre := [Lit('+'), Lit('5'), Lit('1'), OptSpace, Lit('9')];
    var tail := [OptSpace] + d3;
    assert PhonePattern == pre + (d2 + (tail + tail));
    EraseConcat(pre, d2 + (tail + tail));
    EraseConcat(d2, tail + tail);
    EraseConcat(tail, tail);
    EraseConcat([OptSpace], d3);
    assert Erase(pre[4..]) == [Lit('9')];
    assert Erase(pre[3..]) == [Lit('9')];
    assert Erase(pre[2..]) == [Lit('1'), Lit('9')];
    assert Erase(pre[1..]) == [Lit('5'), Lit('1'), Lit('9')];
    assert Erase(pre) == [Lit('+'), Lit('5'), Lit('1'), Lit('9')];
    assert Erase([OptSpace]) == [];
    EraseDigits(2);
    EraseDigits(3);
    assert Erase(tail) == d3;
    assert d2 + (d3 + d3) == Digits(8);
  }

  lemma {:induction false} EraseConcat(a: seq<Token>, b: seq<Token>)
    ensures Erase(a + b) == Erase(a) + Erase(b)
  {
    if a != [] {
      assert (a + b)[1..] == a[1..] + b;
      EraseConcat(a[1..], b);
    } else {
      assert a + b == b;
    }
  }

  lemma {:induction false} EraseDigits(n: nat)
    ensures Erase(Digits(n)) == Digits(n)
  {
    if n > 0 {
      EraseDigits(n - 1);
    }
  }

  /** The canonical form: `+519` followed by exactly eight digits. */
  predicate CanonicalPhone(t: string)
  {
    |t| == 12 && t[..4] == "+519" && forall i :: 4 <= i < 12 ==> IsDigit(t[i])
  }

  /** A string without whitespace is a valid phone exactly when it is canonical. */
  lemma SpacelessValidIffCanonical(t: string)
    requires forall i :: 0 <= i < |t| ==> !IsSpace(t[i])
    ensures ValidPeruvianPhone(t) <==> CanonicalPhone(t)
  {
    MatchSpaceless(t, PhonePattern);
    ErasedPhonePattern();
    var q := Erase(PhonePattern);
    assert |q| == 12;
    assert q[0] == Lit('+') && q[1] == Lit('5') && q[2] == Lit('1') && q[3] == Lit('9');
    assert forall i :: 4 <= i < 12 ==> q[i] == Digit;
    if CanonicalPhone(t) {
      assert t[0] == '+' && t[1] == '5' && t[2] == '1' && t[3] == '9';
    }
  }

  /** A valid phone normalises to its canonical form, which is itself valid. */
  lemma NormalisedPhoneIsCanonical(phone: string)
    requires ValidPeruvianPhone(phone)
    ensures CanonicalPhone(FormatPhoneNumber(phone))
    ensures ValidPeruvianPhone(FormatPhoneNumber(phone))
  {
    assert SpaceFreeLiterals(PhonePattern);
    MatchStripped(phone, PhonePattern);
    SpacelessValidIffCanonical(FormatPhoneNumber(phone));
  }

  /** A digit run matches `\d{n}` followed by whatever matches the rest of the pattern. */
  lemma {:induction false} MatchDigitRun(d: string, t: string, p: seq<Token>)
    requires forall i :: 0 <= i < |d| ==> IsDigit(d[i])
    requires Match(t, p)
    ensures Match(d + t, Digits(|d|) + p)
  {
    if d != [] {
      MatchDigitRun(d[1..], t, p);
      var q := Digits(|d|) + p;
      assert q == [Digit] + (Digits(|d| - 1) + p);
      assert q[0] == Digit && q[1..] == Digits(|d| - 1) + p;
      assert (d + t)[0] == d[0] && (d + t)[1..] == d[1..] + t;
    } else {
      assert d + t == t && Digits(0) + p == p;
    }
  }

  lemma MatchLitStep(c: char, t: string, p: seq<Token>)
    requires Match(t, p)
    ensures Match([c] + t, [Lit(c)] + p)
  {
    assert ([c] + t)[1..] == t && ([Lit(c)] + p)[1..] == p;
  }

  lemma MatchSpaceStep(t: string, p: seq<Token>)
    requires Match(t, p)
    ensures Match(" " + t, [OptSpace] + p)
  {
    assert (" " + t)[1..] == t && ([OptSpace] + p)[1..] == p;
  }

  /** The part of the display form after the `9`. */
  lemma SpacedTailMatches(x: string, y: string, z: string)
    requires |x| == 2 && |y| == 3 && |z| == 3
    requires forall i :: 0 <= i < 2 ==> IsDigit(x[i])
    requires forall i :: 0 <= i < 3 ==> IsDigit(y[i]) && IsDigit(z[i])
    ensures Match(x + (" " + (y + (" " + z))), Digits(2) + ([OptSpace] + (Digits(3) + ([OptSpace] + Digits(3)))))
  {
    var d3 := Digits(3);
    MatchDigitRun(z, [], []);
    assert z + [] == z && d3 + [] == d3;
    MatchSpaceStep(z, d3);
    MatchDigitRun(y, " " + z, [OptSpace] + d3);
    MatchSpaceStep(y + (" " + z), d3 + ([OptSpace] + d3));
    MatchDigitRun(x, " " + (y + (" " + z)), [OptSpace] + (d3 + ([OptSpace] + d3)));
  }

  /** The fixed prefix `+51\s?9` in front of a matching tail. */
  lemma PrefixMatches(t: string, p: seq<Token>)
    requires Match(t, p)
    ensures Match(['+'] + (['5'] + (['1'] + (" " + (['9'] + t)))),
                  [Lit('+')] + ([Lit('5')] + ([Lit('1')] + ([OptSpace] + ([Lit('9')] + p)))))
  {
    MatchLitStep('9', t, p);
    MatchSpaceStep(['9'] + t, [Lit('9')] + p);
    MatchLitStep('1', " " + (['9'] + t), [OptSpace] + ([Lit('9')] + p));
    MatchLitStep('5', ['1'] + (" " + (['9'] + t)), [Lit('1')] + ([OptSpace] + ([Lit('9')] + p)));
    MatchLitStep('+', ['5'] + (['1'] + (" " + (['9'] + t))), [Lit('5')] + ([Lit('1')] + ([OptSpace] + ([Lit('9')] + p))));
  }

  /** The display form `+51 9XX XXX XXX` satisfies the pattern. */
  lemma SpacedFormIsValid(x: string, y: string, z: string)
    requires |x| == 3 && |y| == 3 && |z| == 3 && x[0] == '9'
    requires forall i :: 0 <= i < 3 ==> IsDigit(x[i]) && IsDigit(y[i]) && IsDigit(z[i])
    ensures ValidPeruvianPhone("+51 " + x + " " + y + " " + z)
  {
    var t := x[1..] + (" " + (y + (" " + z)));
    var p := Digits(2) + ([OptSpace] + (Digits(3) + ([OptSpace] + Digits(3))));
    SpacedTailMatches(x[1..], y, z);
    PrefixMatches(t, p);
    PhonePatternSplit(p);
    assert ['+'] + (['5'] + (['1'] + (" " + (['9'] + t)))) == "+51 " + x + " " + y + " " + z by {
      assert x == ['9'] + x[1..];
    }
  }

  lemma PhonePatternSplit(p: seq<Token>)
    requires p == Digits(2) + ([OptSpace] + (Digits(3) + ([OptSpace] + Digits(3))))
    ensures PhonePattern == [Lit('+')] + ([Lit('5')] + ([Lit('1')] + ([OptSpace] + ([Lit('9')] + p))))
  {
  }

  // ---------------------------------------------------------------------------
  // Configuration and sending

  /** `TWILIO_ACCOUNT_SID`, `TWILIO_AUTH_TOKEN`, `TWILIO_PHONE_NUMBER`. */
  datatype SmsEnv = SmsEnv(accountSid: Option<string>, authToken: Option<string>, phoneNumber: Option<string>)

  /** The module state after loading: the environment and whether a client exists. */
  datatype SmsService = SmsService(env: SmsEnv, hasClient: bool)

  /** All three settings present and the SID starting with `AC`. */
  predicate LooksValid(env: SmsEnv)
  {
    Truthy(env.accountSid) && Truthy(env.authToken) && Truthy(env.phoneNumber)
    && StartsWith(env.accountSid.value, "AC")
  }

  /** Module load: a client only when the settings look valid and the client constructor did not throw. */
  function InitService(env: SmsEnv, constructorSucceeds: bool): (svc: SmsService)
    ensures svc.env == env
    ensures svc.hasClient <==> LooksValid(env) && constructorSucceeds
  {
    SmsService(env, LooksValid(env) && constructorSucceeds)
  }

  /** `isConfigured()`. */
  predicate IsConfigured(svc: SmsService)
  {
    LooksValid(svc.env)
  }

  datatype SmsConfig = SmsConfig(isConfigured: bool, hasAccountSid: bool, hasAuthToken: bool,
                                 hasPhoneNumber: bool, mode: string)

  /** `getConfig()`. */
  function GetConfig(svc: SmsService): (c: SmsConfig)
    ensures c.mode == "real" <==> IsConfigured(svc)
    ensures c.mode == "simulation" <==> !IsConfigured(svc)
    ensures c.isConfigured ==> c.hasAccountSid && c.hasAuthToken && c.hasPhoneNumber
  {
    SmsConfig(IsConfigured(svc), Truthy(svc.env.accountSid), Truthy(svc.env.authToken),
              Truthy(svc.env.phoneNumber), if IsConfigured(svc) then "real" else "simulation")
  }

  /** A client can only exist when the service reports itself configured. */
  lemma ClientImpliesConfigured(env: SmsEnv, constructorSucceeds: bool)
    ensures InitService(env, constructorSucceeds).hasClient ==> IsConfigured(InitService(env, constructorSucceeds))
    ensures !LooksValid(env) ==> GetConfig(InitService(env, constructorSucceeds)).mode == "simulation"
  {
  }

  /** The gateway's answer to `messages.create`. */
  datatype GatewayReply = Accepted(sid: string, status: string) | Rejected(message: string)

  /** `Date.now()` and `new Date().toISOString()` at the time of the call. */
  datatype Clock = Clock(millis: nat, iso: string)

  datatype SmsResult = SmsResult(
    success: bool, messageId: Option<string>, phone: string, message: string,
    smsType: string, status: Option<string>, error: Option<string>, timestamp: string)

  const DefaultType := "general"

  /** `sendSMS(phone, message, type = 'general')`: never throws. */
  function SendSms(svc: SmsService, phone: string, message: string, smsType: Option<string>,
                   reply: GatewayReply, clock: Clock): (r: SmsResult)
    ensures r.phone == FormatPhoneNumber(phone) && r.message == message
    ensures r.smsType == if smsType.Some? then smsType.value else DefaultType
    ensures !svc.hasClient ==> r.success && r.status == Some("simulated")
    ensures !svc.hasClient ==> r.messageId == Some("sim_" + NatToString(clock.millis))
    ensures svc.hasClient ==> (r.success <==> reply.Accepted?)
    ensures svc.hasClient && reply.Accepted? ==> r.messageId == Some(reply.sid) && r.status == Some(reply.status)
    ensures svc.hasClient && reply.Rejected? ==> r.error == Some(reply.message) && r.messageId.None?
  {
    var formatted := FormatPhoneNumber(phone);
    var ty := if smsType.Some? then smsType.value else DefaultType;
    if !svc.hasClient then
      SmsResult(true, Some("sim_" + NatToString(clock.millis)), formatted, message, ty,
                Some("simulated"), None, clock.iso)
    else match reply
      case Accepted(sid, status) =>
        SmsResult(true, Some(sid), formatted, message, ty, Some(status), None, clock.iso)
      case Rejected(msg) =>
        SmsResult(false, None, formatted, message, ty, None, Some(msg), clock.iso)
  }

  // ---------------------------------------------------------------------------
  // Templates

  const InvalidPhone := "Número de teléfono inválido"

  /** `sendFrostAlert`: no phone check. */
  function FrostAlertText(risk: real, riskLevel: string, targetHour: Option<string>): string
  {
    "ALERTA HELADA (" + IntToString(Round(risk * 100.0)) + "% - " + ToUpper(riskLevel)
    + ") Hora objetivo: " + (if Truthy(targetHour) then targetHour.value else "")
    + ". Protege tus cultivos."
  }

  function SendFrostAlert(svc: SmsService, phone: string, risk: real, riskLevel: string,
                          targetHour: Option<string>, reply: GatewayReply, clock: Clock): (r: SmsResult)
    ensures r.smsType == "frost_alert" && r.message == FrostAlertText(risk, riskLevel, targetHour)
    ensures r.phone == FormatPhoneNumber(phone)
  {
    SendSms(svc, phone, FrostAlertText(risk, riskLevel, targetHour), Some("frost_alert"), reply, clock)
  }

  function WelcomeText(userName: string): string
  {
    "\U{00A1}Hola " + userName + "! \U{1F331} Bienvenido(a) a EnerAgro PE. Te has registrado correctamente. "
    + "Ahora puedes acceder a todas nuestras herramientas agrícolas inteligentes."
  }

  /** `sendWelcomeSMS`. */
  function SendWelcomeSms(svc: SmsService, phone: string, userName: string,
                          reply: GatewayReply, clock: Clock): (r: Result<SmsResult>)
    ensures r.Err? <==> !ValidPeruvianPhone(phone)
    ensures r.Err? ==> r.error == InvalidPhone
    ensures r.Ok? ==> r.value.smsType == "welcome" && r.value.message == WelcomeText(userName)
  {
    if !ValidPeruvianPhone(phone) then Err(InvalidPhone)
    else Ok(SendSms(svc, phone, WelcomeText(userName), Some("welcome"), reply, clock))
  }

  function IrrigationText(cropType: string, recommendation: string): string
  {
    "\U{1F6A8} ALERTA DE RIEGO - " + ToUpper(cropType) + ": " + recommendation
    + ". Revisa la app para más detalles. AgroTech PE"
  }

  /** `sendIrrigationAlert`. */
  function SendIrrigationAlert(svc: SmsService, phone: string, cropType: string, recommendation: string,
                               reply: GatewayReply, clock: Clock): (r: Result<SmsResult>)
    ensures r.Err? <==> !ValidPeruvianPhone(phone)
    ensures r.Err? ==> r.error == InvalidPhone
    ensures r.Ok? ==> r.value.smsType == "irrigation_alert"
    ensures r.Ok? ==> r.value.message == IrrigationText(cropType, recommendation)
  {
    if !ValidPeruvianPhone(phone) then Err(InvalidPhone)
    else Ok(SendSms(svc, phone, IrrigationText(cropType, recommendation), Some("irrigation_alert"), reply, clock))
  }

  function WeatherText(message: string): string
  {
    "\U{1F326}\U{FE0F} ALERTA CLIMÁTICA: " + message + ". Toma las precauciones necesarias. EnerAgro PE"
  }

  /** `sendWeatherAlert` (the alert type is not part of the text). */
  function SendWeatherAlert(svc: SmsService, phone: string, alertType: string, message: string,
                            reply: GatewayReply, clock: Clock): (r: Result<SmsResult>)
    ensures r.Err? <==> !ValidPeruvianPhone(phone)
    ensures r.Err? ==> r.error == InvalidPhone
    ensures r.Ok? ==> r.value.smsType == "weather_alert" && r.value.message == WeatherText(message)
  {
    if !ValidPeruvianPhone(phone) then Err(InvalidPhone)
    else Ok(SendSms(svc, phone, WeatherText(message), Some("weather_alert"), reply, clock))
  }

  /** The severity wording: the four known levels in Spanish, anything else upper-cased. */
  function SeverityText(severity: string): (t: string)
    ensures severity == "low" ==> t == "BAJA"
    ensures severity == "medium" ==> t == "MEDIA"
    ensures severity == "high" ==> t == "ALTA"
    ensures severity == "critical" ==> t == "CRÍTICA"
    ensures severity !in {"low", "medium", "high", "critical"} ==> t == ToUpper(severity)
  {
    if severity == "low" then "BAJA"
    else if severity == "medium" then "MEDIA"
    else if severity == "high" then "ALTA"
    else if severity == "critical" then "CRÍTICA"
    else ToUpper(severity)
  }

  function PestText(pestType: string, severity: string, recommendation: string): string
  {
    "\U{1F41B} ALERTA DE PLAGAS - Severidad: " + SeverityText(severity) + ". " + pestType + ": "
    + recommendation + ". Revisa la app para más información. AgroTech PE"
  }

  /** `sendPestAlert`. */
  function SendPestAlert(svc: SmsService, phone: string, pestType: string, severity: string,
                         recommendation: string, reply: GatewayReply, clock: Clock): (r: Result<SmsResult>)
    ensures r.Err? <==> !ValidPeruvianPhone(phone)
    ensures r.Err? ==> r.error == InvalidPhone
    ensures r.Ok? ==> r.value.smsType == "pest_alert"
    ensures r.Ok? ==> r.value.message == PestText(pestType, severity, recommendation)
  {
    if !ValidPeruvianPhone(phone) then Err(InvalidPhone)
    else Ok(SendSms(svc, phone, PestText(pestType, severity, recommendation), Some("pest_alert"), reply, clock))
  }

  function SolarText(systemType: string, nextMaintenance: string): string
  {
    "\U{2600}\U{FE0F} RECORDATORIO: Mantenimiento de tu sistema solar " + systemType + " programado para "
    + nextMaintenance + ". AgroTech PE"
  }

  /** `sendSolarMaintenanceReminder`. */
  function SendSolarMaintenanceReminder(svc: SmsService, phone: string, systemType: string,
                                        nextMaintenance: string, reply: GatewayReply, clock: Clock)
    : (r: Result<SmsResult>)
    ensures r.Err? <==> !ValidPeruvianPhone(phone)
    ensures r.Err? ==> r.error == InvalidPhone
    ensures r.Ok? ==> r.value.smsType == "solar_maintenance"
    ensures r.Ok? ==> r.value.message == SolarText(systemType, nextMaintenance)
  {
    if !ValidPeruvianPhone(phone) then Err(InvalidPhone)
    else Ok(SendSms(svc, phone, SolarText(systemType, nextMaintenance), Some("solar_maintenance"), reply, clock))
  }

  /** The frost alert opens with its banner, then the rounded percentage, then the upper-cased level. */
  lemma FrostAlertMentionsLevel(risk: real, riskLevel: string, targetHour: Option<string>)
    ensures StartsWith(FrostAlertText(risk, riskLevel, targetHour), "ALERTA HELADA (")
    ensures OccursAt(FrostAlertText(risk, riskLevel, targetHour), IntToString(Round(risk * 100.0)), 15)
    ensures OccursAt(FrostAlertText(risk, riskLevel, targetHour), ToUpper(riskLevel),
                     19 + |IntToString(Round(risk * 100.0))|)
  {
    var pct := IntToString(Round(risk * 100.0));
    var text := FrostAlertText(risk, riskLevel, targetHour);
    var head := "ALERTA HELADA (" + pct + "% - ";
    var rest := ") Hora objetivo: " + (if Truthy(targetHour) then targetHour.value else "")
      + ". Protege tus cultivos.";
    assert text == head + ToUpper(riskLevel) + rest;
    assert |head| == 19 + |pct|;
    assert text[..15] == "ALERTA HELADA (";
    assert text[15..15 + |pct|] == pct;
    assert text[|head|..|head| + |ToUpper(riskLevel)|] == ToUpper(riskLevel);
  }

  // ---------------------------------------------------------------------------
  // History

  datatype HistoryData = HistoryData(userId: string, messages: seq<string>, total: nat, limit: Option<int>)

  /** `getSMSHistory(userId, limit = 10)`: nothing is stored, so the list is always empty. */
  function GetSmsHistory(userId: string, limit: Option<int>): (h: HistoryData)
    ensures h.messages == [] && h.total == 0 && h.userId == userId && h.limit == limit
  {
    HistoryData(userId, [], 0, limit)
  }
}
