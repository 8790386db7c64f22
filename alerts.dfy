/**
 * modules/alerts.py: the alert pipeline of AlertSystem. process_eas_message
 * decodes, encrypts, validates, distributes and logs, in that order; the
 * distribution loops over recipients and, for each of them, over siren
 * locations.
 *
 * format_message, is_valid_format, is_duplicate, get_recipients,
 * get_siren_locations, send_sms, send_websocket, activate_siren, log_alert
 * and the Fernet cipher are outside the core. Their answers during one call
 * are the parameters `h` and the field `cipher`; every call the class makes
 * to them is appended to the ghost `trace`.
 */
module Alerts {
  import opened Wrappers
  import opened Traces

  type Bytes = seq<bv8>

  /** The geographic_area argument; None is Python's default `None`. */
  type Area = Option<string>

  /** The cipher and the JSON codec that wrap it (json.dumps(...).encode() / json.loads). */
  datatype Cipher = Cipher(
    dumps: string -> Bytes,
    loads: Bytes -> Option<string>,     // None: json.loads raises
    encrypt: Bytes -> Bytes,            // Fernet.encrypt
    decrypt: Bytes -> Option<Bytes>)    // None: Fernet.decrypt raises InvalidToken

  /** The helpers AlertSystem calls but that are not defined in the module, as they answer during one call. */
  datatype Helpers = Helpers(
    formatMessage: string -> string,
    isValidFormat: string -> bool,
    isDuplicate: string -> bool,
    getRecipients: Area -> seq<string>,
    getSirenLocations: Area -> seq<string>)

  /** Calls into code outside the core. */
  datatype Event =
    | FormatMessage(raw: string)
    | Encrypt(plain: string)
    | Decrypt(token: Bytes)
    | CheckFormat(alert: string)
    | CheckDuplicate(alert: string)
    | GetRecipients(area: Area)
    | SendSms(recipient: string, payload: Bytes)
    | SendWebsocket(recipient: string, payload: Bytes)
    | GetSirenLocations(area: Area)
    | ActivateSiren(location: string)
    | LogAlert(alert: string)

  /** The two ValueErrors validate_alert raises. */
  datatype AlertError = InvalidFormat | Duplicate

  function Message(e: AlertError): string {
    match e
    case InvalidFormat => "Invalid alert format"
    case Duplicate => "Duplicate alert detected"
  }

  /** ---- encrypt_message / decrypt_message ---- */

  function Encrypted(c: Cipher, message: string): Bytes {
    c.encrypt(c.dumps(message))
  }

  function Decrypted(c: Cipher, token: Bytes): Option<string> {
    match c.decrypt(token)
    case None => None
    case Some(plain) => c.loads(plain)
  }

  /** ---- validate_alert ---- */

  /** The outcome of validate_alert: True, or the ValueError it raises. */
  function Validate(h: Helpers, alert: string): Result<bool, AlertError> {
    if !h.isValidFormat(alert) then Err(InvalidFormat)
    else if h.isDuplicate(alert) then Err(Duplicate)
    else Ok(true)
  }

  /** The checks validate_alert consults, in order. */
  function ValidateEvents(h: Helpers, alert: string): seq<Event> {
    [CheckFormat(alert)] + (if h.isValidFormat(alert) then [CheckDuplicate(alert)] else [])
  }

  /** ---- trigger_sirens ---- */

  function ActivateOf(location: string): Event { ActivateSiren(location) }

  function SirenEvents(h: Helpers, area: Area): seq<Event> {
    [GetSirenLocations(area)] + MapSeq(h.getSirenLocations(area), ActivateOf)
  }

  /** ---- distribute_alert ---- */

  /** The calls of one iteration of the recipient loop. */
  function RecipientEvents(h: Helpers, alert: Bytes, area: Area, recipient: string): seq<Event> {
    [SendSms(recipient, alert), SendWebsocket(recipient, alert)] + SirenEvents(h, area)
  }

  /** The calls of the recipient loop over `recipients`, in order. */
  function FanoutEvents(h: Helpers, alert: Bytes, area: Area, recipients: seq<string>): seq<Event> {
    if recipients == [] then []
    else
      var n := |recipients| - 1;
      FanoutEvents(h, alert, area, recipients[..n]) + RecipientEvents(h, alert, area, recipients[n])
  }

  function DistributeEvents(h: Helpers, alert: Bytes, area: Area): seq<Event> {
    [GetRecipients(area)] + FanoutEvents(h, alert, area, h.getRecipients(area))
  }

  /** ---- process_eas_message ---- */

  /** What process_eas_message returns, or the error it raises. */
  function ProcessResult(h: Helpers, message: string): Result<string, AlertError> {
    var decoded := h.formatMessage(message);
    match Validate(h, decoded)
    case Err(e) => Err(e)
    case Ok(_) => Ok(decoded)
  }

  function ProcessEvents(h: Helpers, c: Cipher, message: string, area: Area): seq<Event> {
    var decoded := h.formatMessage(message);
    [FormatMessage(message), Encrypt(decoded)] + ValidateEvents(h, decoded)
      + (if Validate(h, decoded).Ok? then DistributeEvents(h, Encrypted(c, decoded), area) + [LogAlert(decoded)] else [])
  }

  /** ---- event classes ---- */

  predicate IsSms(e: Event) { e.SendSms? }
  predicate IsWebsocket(e: Event) { e.SendWebsocket? }
  predicate IsSirenLookup(e: Event) { e.GetSirenLocations? }
  predicate IsActivation(e: Event) { e.ActivateSiren? }

  /** The effects that reach the outside world or the log: everything after validation. */
  predicate IsDelivery(e: Event) {
    e.GetRecipients? || e.SendSms? || e.SendWebsocket? || e.GetSirenLocations? || e.ActivateSiren? || e.LogAlert?
  }

  predicate IsValidation(e: Event) { e.CheckFormat? || e.CheckDuplicate? }

  function SmsTarget(e: Event): Option<string> { if e.SendSms? then Some(e.recipient) else None }
  function WebsocketTarget(e: Event): Option<string> { if e.SendWebsocket? then Some(e.recipient) else None }
  function ActivatedLocation(e: Event): Option<string> { if e.ActivateSiren? then Some(e.location) else None }

  class AlertSystem {
    const cipher: Cipher
    var alertHistory: seq<string>
    ghost var trace: seq<Event>

    /** __init__: the cipher is Fernet(ENCRYPTION_KEY); the history starts empty. */
    constructor (cipher: Cipher)
      ensures this.cipher == cipher && alertHistory == [] && trace == []
    {
      this.cipher := cipher;
      alertHistory := [];
      trace := [];
    }

    method ProcessEasMessage(h: Helpers, message: string, area: Area) returns (r: Result<string, AlertError>)
      modifies this`trace
      ensures r == ProcessResult(h, message)
      ensures trace == old(trace) + ProcessEvents(h, cipher, message, area)
    {
      trace := trace + [FormatMessage(message)];
      var decoded := h.formatMessage(message);
      var encrypted := EncryptMessage(decoded);
      var valid := ValidateAlert(h, decoded);
      if valid.Err? {
        return Err(valid.error);
      }
      DistributeAlert(h, encrypted, area);
      trace := trace + [LogAlert(decoded)];
      return Ok(decoded);
    }

    method DistributeAlert(h: Helpers, alert: Bytes, area: Area)
      modifies this`trace
      ensures trace == old(trace) + DistributeEvents(h, alert, area)
    {
      trace := trace + [GetRecipients(area)];
      var recipients := h.getRecipients(area);
      var i := 0;
      while i < |recipients|
        invariant 0 <= i <= |recipients|
        invariant trace == old(trace) + [GetRecipients(area)] + FanoutEvents(h, alert, area, recipients[..i])
      {
        trace := trace + [SendSms(recipients[i], alert)];
        trace := trace + [SendWebsocket(recipients[i], alert)];
        TriggerSirens(h, area);
        assert recipients[..i + 1][..i] == recipients[..i];
        i := i + 1;
      }
      assert recipients[..i] == recipients;
    }

    method ValidateAlert(h: Helpers, alert: string) returns (r: Result<bool, AlertError>)
      modifies this`trace
      ensures r == Validate(h, alert)
      ensures trace == old(trace) + ValidateEvents(h, alert)
    {
      trace := trace + [CheckFormat(alert)];
      if !h.isValidFormat(alert) {
        return Err(InvalidFormat);
      }
      trace := trace + [CheckDuplicate(alert)];
      if h.isDuplicate(alert) {
        return Err(Duplicate);
      }
      return Ok(true);
    }

    method EncryptMessage(message: string) returns (token: Bytes)
      modifies this`trace
      ensures token == Encrypted(cipher, message)
      ensures trace == old(trace) + [Encrypt(message)]
    {
      trace := trace + [Encrypt(message)];
      token := cipher.encrypt(cipher.dumps(message));
    }

    method DecryptMessage(token: Bytes) returns (message: Option<string>)
      modifies this`trace
      ensures message == Decrypted(cipher, token)
      ensures trace == old(trace) + [Decrypt(token)]
    {
      trace := trace + [Decrypt(token)];
      var plain := cipher.decrypt(token);
      message := if plain.Some? then cipher.loads(plain.value) else None;
    }

    method TriggerSirens(h: Helpers, area: Area)
      modifies this`trace
      ensures trace == old(trace) + SirenEvents(h, area)
    {
      trace := trace + [GetSirenLocations(area)];
      var locations := h.getSirenLocations(area);
      ghost var start := trace;
      for i := 0 to |locations|
        invariant trace == start + MapSeq(locations[..i], ActivateOf)
      {
        assert locations[..i + 1][..i] == locations[..i];
        trace := trace + [ActivateSiren(locations[i])];
      }
      assert locations[..|locations|] == locations;
    }
  }

  /** ---- lemmas ---- */

  /** A badly formatted alert is rejected with "Invalid alert format" and is_duplicate is never consulted. */
  lemma FormatCheckedFirst(h: Helpers, alert: string)
    requires !h.isValidFormat(alert)
    ensures Validate(h, alert) == Err(InvalidFormat) && Message(Validate(h, alert).error) == "Invalid alert format"
    ensures ValidateEvents(h, alert) == [CheckFormat(alert)]
    ensures CheckDuplicate(alert) !in ValidateEvents(h, alert)
  {
  }

  /** A well-formed alert is rejected with "Duplicate alert detected" exactly when is_duplicate holds, else accepted. */
  lemma DuplicateCheckedSecond(h: Helpers, alert: string)
    requires h.isValidFormat(alert)
    ensures Validate(h, alert) == Err(Duplicate) <==> h.isDuplicate(alert)
    ensures Validate(h, alert) == Ok(true) <==> !h.isDuplicate(alert)
    ensures Message(Duplicate) == "Duplicate alert detected"
    ensures ValidateEvents(h, alert) == [CheckFormat(alert), CheckDuplicate(alert)]
  {
  }

  /** Decrypting what encrypt_message produced gives the message back, when the cipher and codec are inverse pairs. */
  lemma CipherRoundTrip(c: Cipher, message: string)
    requires forall b :: c.decrypt(c.encrypt(b)) == Some(b)
    requires forall m :: c.loads(c.dumps(m)) == Some(m)
    ensures Decrypted(c, Encrypted(c, message)) == Some(message)
  {
  }

  /** trigger_sirens activates the sirens of get_siren_locations(area), once each, in order. */
  lemma SirenActivations(h: Helpers, area: Area)
    ensures Collect(SirenEvents(h, area), ActivatedLocation) == h.getSirenLocations(area)
    ensures Count(SirenEvents(h, area), IsActivation) == |h.getSirenLocations(area)|
    ensures Count(SirenEvents(h, area), IsSirenLookup) == 1
  {
    var locations := h.getSirenLocations(area);
    var acts := MapSeq(locations, ActivateOf);
    CollectAppend([GetSirenLocations(area)], acts, ActivatedLocation);
    CollectMapSeq(locations, ActivateOf, ActivatedLocation);
    assert [GetSirenLocations(area)][..0] == [];
    CountAppend([GetSirenLocations(area)], acts, IsActivation);
    CountMapSeqAll(locations, ActivateOf, IsActivation);
    CountAppend([GetSirenLocations(area)], acts, IsSirenLookup);
    CountZero(acts, IsSirenLookup);
  }

  /** One iteration of the recipient loop: one SMS and one websocket push to that recipient, then trigger_sirens. */
  lemma RecipientCounts(h: Helpers, alert: Bytes, area: Area, recipient: string)
    ensures Count(RecipientEvents(h, alert, area, recipient), IsSms) == 1
    ensures Count(RecipientEvents(h, alert, area, recipient), IsWebsocket) == 1
    ensures Count(RecipientEvents(h, alert, area, recipient), IsSirenLookup) == 1
    ensures Count(RecipientEvents(h, alert, area, recipient), IsActivation) == |h.getSirenLocations(area)|
    ensures Collect(RecipientEvents(h, alert, area, recipient), SmsTarget) == [recipient]
    ensures Collect(RecipientEvents(h, alert, area, recipient), WebsocketTarget) == [recipient]
    ensures RecipientEvents(h, alert, area, recipient)[0] == SendSms(recipient, alert)
    ensures RecipientEvents(h, alert, area, recipient)[1] == SendWebsocket(recipient, alert)
  {
    var head := [SendSms(recipient, alert), SendWebsocket(recipient, alert)];
    var sirens := SirenEvents(h, area);
    assert head[..1] == [SendSms(recipient, alert)] && head[..1][..0] == [];
    SirenActivations(h, area);
    CountAppend(head, sirens, IsSms);
    CountAppend(head, sirens, IsWebsocket);
    CountAppend(head, sirens, IsSirenLookup);
    CountAppend(head, sirens, IsActivation);
    CountZero(sirens, IsSms);
    CountZero(sirens, IsWebsocket);
    CollectAppend(head, sirens, SmsTarget);
    CollectAppend(head, sirens, WebsocketTarget);
    CollectNone(sirens, SmsTarget);
    CollectNone(sirens, WebsocketTarget);
  }

  /** Nothing is extracted from a trace whose every element `f` rejects. */
  lemma {:induction false} CollectNone(s: seq<Event>, f: Event -> Option<string>)
    requires forall i :: 0 <= i < |s| ==> f(s[i]).None?
    ensures Collect(s, f) == []
  {
    if s != [] {
      CollectNone(s[..|s| - 1], f);
    }
  }

  /** The recipient loop over `recipients` sends one SMS and one websocket push per recipient, in recipient order. */
  lemma {:induction false} FanoutMessages(h: Helpers, alert: Bytes, area: Area, recipients: seq<string>)
    ensures Collect(FanoutEvents(h, alert, area, recipients), SmsTarget) == recipients
    ensures Collect(FanoutEvents(h, alert, area, recipients), WebsocketTarget) == recipients
  {
    if recipients != [] {
      var n := |recipients| - 1;
      var front := FanoutEvents(h, alert, area, recipients[..n]);
      var block := RecipientEvents(h, alert, area, recipients[n]);
      FanoutMessages(h, alert, area, recipients[..n]);
      RecipientCounts(h, alert, area, recipients[n]);
      CollectAppend(front, block, SmsTarget);
      CollectAppend(front, block, WebsocketTarget);
      assert recipients[..n] + [recipients[n]] == recipients;
    }
  }

  /** The recipient loop over `recipients` makes as many SMS, push and siren-lookup calls as there are recipients. */
  lemma {:induction false} FanoutCounts(h: Helpers, alert: Bytes, area: Area, recipients: seq<string>)
    ensures Count(FanoutEvents(h, alert, area, recipients), IsSms) == |recipients|
    ensures Count(FanoutEvents(h, alert, area, recipients), IsWebsocket) == |recipients|
    ensures Count(FanoutEvents(h, alert, area, recipients), IsSirenLookup) == |recipients|
  {
    if recipients != [] {
      var n := |recipients| - 1;
      var front := FanoutEvents(h, alert, area, recipients[..n]);
      var block := RecipientEvents(h, alert, area, recipients[n]);
      FanoutCounts(h, alert, area, recipients[..n]);
      RecipientCounts(h, alert, area, recipients[n]);
      CountAppend(front, block, IsSms);
      CountAppend(front, block, IsWebsocket);
      CountAppend(front, block, IsSirenLookup);
    }
  }

  /** Every recipient triggers every siren of the area once more: |recipients| * |locations| activations. */
  lemma {:induction false} FanoutActivations(h: Helpers, alert: Bytes, area: Area, recipients: seq<string>)
    ensures Count(FanoutEvents(h, alert, area, recipients), IsActivation) == |recipients| * |h.getSirenLocations(area)|
  {
    if recipients != [] {
      var n := |recipients| - 1;
      var k := |h.getSirenLocations(area)|;
      FanoutActivations(h, alert, area, recipients[..n]);
      RecipientCounts(h, alert, area, recipients[n]);
      CountAppend(FanoutEvents(h, alert, area, recipients[..n]), RecipientEvents(h, alert, area, recipients[n]), IsActivation);
      StepProduct(n, k);
    }
  }

  lemma StepProduct(n: nat, k: nat)
    ensures n * k + k == (n + 1) * k
  {
  }

  /** Every SMS of `t` is followed at once by the websocket push of `alert` to the same recipient. */
  predicate SmsThenWebsocket(t: seq<Event>, alert: Bytes) {
    forall i :: 0 <= i < |t| && t[i].SendSms? ==> i + 1 < |t| && t[i + 1] == SendWebsocket(t[i].recipient, alert)
  }

  /** In the recipient loop every SMS is followed at once by the websocket push to the same recipient. */
  lemma {:induction false} FanoutSmsThenWebsocket(h: Helpers, alert: Bytes, area: Area, recipients: seq<string>)
    ensures SmsThenWebsocket(FanoutEvents(h, alert, area, recipients), alert)
  {
    if recipients != [] {
      var n := |recipients| - 1;
      var front := FanoutEvents(h, alert, area, recipients[..n]);
      var block := RecipientEvents(h, alert, area, recipients[n]);
      var t := FanoutEvents(h, alert, area, recipients);
      FanoutSmsThenWebsocket(h, alert, area, recipients[..n]);
      SirenActivations(h, area);
      var sirens := SirenEvents(h, area);
      assert t == front + block;
      assert block == [SendSms(recipients[n], alert), SendWebsocket(recipients[n], alert)] + sirens;
      forall j | 2 <= j < |block|
        ensures !block[j].SendSms?
      {
        assert block[j] == sirens[j - 2];
      }
      forall i | 0 <= i < |t| && t[i].SendSms?
        ensures i + 1 < |t| && t[i + 1] == SendWebsocket(t[i].recipient, alert)
      {
        if i < |front| {
          assert t[i] == front[i];
          assert t[i + 1] == front[i + 1];
        } else {
          assert t[i] == block[i - |front|];
          assert i == |front|;
          assert t[i] == SendSms(recipients[n], alert);
          assert t[i + 1] == block[1];
        }
      }
    }
  }

  /**
   * distribute_alert sends one SMS and one websocket push to each recipient of get_recipients(area),
   * in order, and calls trigger_sirens once per recipient: n recipients get the sirens n times,
   * and no recipient means no siren at all.
   */
  lemma DistributeCounts(h: Helpers, alert: Bytes, area: Area)
    ensures Collect(DistributeEvents(h, alert, area), SmsTarget) == h.getRecipients(area)
    ensures Collect(DistributeEvents(h, alert, area), WebsocketTarget) == h.getRecipients(area)
    ensures Count(DistributeEvents(h, alert, area), IsSms) == |h.getRecipients(area)|
    ensures Count(DistributeEvents(h, alert, area), IsWebsocket) == |h.getRecipients(area)|
    ensures Count(DistributeEvents(h, alert, area), IsSirenLookup) == |h.getRecipients(area)|
    ensures Count(DistributeEvents(h, alert, area), IsActivation)
         == |h.getRecipients(area)| * |h.getSirenLocations(area)|
    ensures SmsThenWebsocket(DistributeEvents(h, alert, area), alert)
  {
    var head := [GetRecipients(area)];
    var rest := FanoutEvents(h, alert, area, h.getRecipients(area));
    assert head[..0] == [];
    FanoutMessages(h, alert, area, h.getRecipients(area));
    FanoutCounts(h, alert, area, h.getRecipients(area));
    FanoutActivations(h, alert, area, h.getRecipients(area));
    FanoutSmsThenWebsocket(h, alert, area, h.getRecipients(area));
    CountAppend(head, rest, IsSms);
    CountAppend(head, rest, IsWebsocket);
    CountAppend(head, rest, IsSirenLookup);
    CountAppend(head, rest, IsActivation);
    CollectAppend(head, rest, SmsTarget);
    CollectAppend(head, rest, WebsocketTarget);
    var t := DistributeEvents(h, alert, area);
    assert t == head + rest;
    forall i | 0 <= i < |t| && t[i].SendSms?
      ensures i + 1 < |t| && t[i + 1] == SendWebsocket(t[i].recipient, alert)
    {
      assert t[i] == rest[i - 1];
      assert t[i + 1] == rest[i];
    }
  }

  /** Every call of the recipient loop is a delivery, none is a log entry, and every message sent is `alert`. */
  lemma {:induction false} FanoutShape(h: Helpers, alert: Bytes, area: Area, recipients: seq<string>)
    ensures forall e :: e in FanoutEvents(h, alert, area, recipients) ==>
              IsDelivery(e) && !e.LogAlert? && ((e.SendSms? || e.SendWebsocket?) ==> e.payload == alert)
  {
    if recipients != [] {
      FanoutShape(h, alert, area, recipients[..|recipients| - 1]);
    }
  }

  /** A rejected alert is never distributed or logged, although it has already been encrypted. */
  lemma RejectedHasNoDelivery(h: Helpers, c: Cipher, message: string, area: Area)
    requires Validate(h, h.formatMessage(message)).Err?
    ensures ProcessResult(h, message) == Err(Validate(h, h.formatMessage(message)).error)
    ensures forall i :: 0 <= i < |ProcessEvents(h, c, message, area)| ==> !IsDelivery(ProcessEvents(h, c, message, area)[i])
    ensures Encrypt(h.formatMessage(message)) in ProcessEvents(h, c, message, area)
  {
  }

  /**
   * An accepted alert: distribute_alert gets the encrypted text, log_alert the decoded text as the
   * very last call, the decoded text is returned, and encryption came before validation.
   */
  lemma AcceptedPipeline(h: Helpers, c: Cipher, message: string, area: Area)
    requires Validate(h, h.formatMessage(message)).Ok?
    ensures var decoded := h.formatMessage(message);
            var t := ProcessEvents(h, c, message, area);
            && ProcessResult(h, message) == Ok(decoded)
            && t[1] == Encrypt(decoded) && t[2] == CheckFormat(decoded)
            && t[|t| - 1] == LogAlert(decoded)
            && (forall e :: e in t && (e.SendSms? || e.SendWebsocket?) ==> e.payload == Encrypted(c, decoded))
            && (forall e :: e in t && e.LogAlert? ==> e.alert == decoded)
  {
    var decoded := h.formatMessage(message);
    FanoutShape(h, Encrypted(c, decoded), area, h.getRecipients(area));
  }

  /** Validation precedes every delivery: no SMS, push, siren or log call comes before a validation check. */
  lemma ValidationBeforeDelivery(h: Helpers, c: Cipher, message: string, area: Area, i: nat, j: nat)
    requires i < |ProcessEvents(h, c, message, area)| && j < |ProcessEvents(h, c, message, area)|
    requires IsValidation(ProcessEvents(h, c, message, area)[i])
    requires IsDelivery(ProcessEvents(h, c, message, area)[j])
    ensures i < j
  {
    var decoded := h.formatMessage(message);
    var pre := [FormatMessage(message), Encrypt(decoded)] + ValidateEvents(h, decoded);
    var t := ProcessEvents(h, c, message, area);
    if Validate(h, decoded).Ok? {
      var post := DistributeEvents(h, Encrypted(c, decoded), area) + [LogAlert(decoded)];
      assert t == pre + post;
      FanoutShape(h, Encrypted(c, decoded), area, h.getRecipients(area));
      assert forall k :: |pre| <= k < |t| ==> t[k] == post[k - |pre|];
      var d := DistributeEvents(h, Encrypted(c, decoded), area);
      var fan := FanoutEvents(h, Encrypted(c, decoded), area, h.getRecipients(area));
      forall k | 0 <= k < |post| ensures !IsValidation(post[k]) {
        if 0 < k < |d| {
          assert post[k] == d[k] == fan[k - 1];
          assert fan[k - 1] in fan;
        }
      }
    }
  }
}
