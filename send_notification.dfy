/** The `send-notification` edge function of
    supabase/functions/send-notification/index.ts: the checks on a request,
    the SMS or e-mail it sends, and the response it answers with. The
    environment settings and the provider's answer are parameters. */
module SendNotification {
  import opened Common
  import opened WaitText

  /** The JSON body of a request. Every member is taken to be present, the
      text ones as text; an empty text stands for an empty or missing phone
      number or address, which the checks refuse alike. */
  datatype RequestBody = RequestBody(
    customerId: string, kind: string, customerName: string, customerPhone: string,
    customerEmail: string, token: string, waitTime: int)

  /** An incoming request: a CORS preflight, a body, or a body that does not parse. */
  datatype Request = Preflight | Post(body: RequestBody) | Unreadable(error: string)

  /** `Deno.env` as far as the senders read it; '' is an unset variable. */
  datatype Env = Env(twilioAccountSid: string, twilioAuthToken: string, twilioPhoneNumber: string, resendApiKey: string)

  /** What the function hands to Twilio or Resend. */
  datatype Outgoing = SmsTo(phone: string, text: string) | EmailTo(address: string, subject: string, text: string)

  /** The provider's answer: accepted, or refused with its response text. */
  datatype ProviderReply = Accepted | Refused(text: string)

  datatype ResponseBody = NullBody | Success(message: string) | Failure(error: string)

  datatype Response = Response(status: int, body: ResponseBody, headers: seq<(string, string)>)

  const CorsHeaders: seq<(string, string)> := [
    ("Access-Control-Allow-Origin", "*"),
    ("Access-Control-Allow-Headers", "authorization, x-client-info, apikey, content-type")]

  const JsonHeaders: seq<(string, string)> := CorsHeaders + [("Content-Type", "application/json")]

  const PhoneRequired := "Customer phone number is required for SMS"
  const EmailRequired := "Customer email is " + "required" + " for email notification"
  const InvalidType := "Invalid notification type"
  const TwilioNotConfigured := "Twilio credentials not configured"
  const ResendNotConfigured := "Resend API key not configured"

  function SmsText(name: string, token: string, waitTime: int): string {
    "Hello " + name + "! Your queue number " + token + " at Esca Optical is ready. Current wait time: "
      + FormatWait(waitTime) + ". Please arrive soon to maintain your position."
  }

  function EmailSubject(token: string): string {
    "Queue Update - Token " + token + " | Esca Optical"
  }

  function EmailText(name: string, token: string, waitTime: int): string {
    "Hello " + name + "!<br><br>Your queue number <strong>" + token
      + "</strong> at Esca Optical is ready for service.<br><br>Current estimated wait time: <strong>"
      + FormatWait(waitTime) + "</strong><br><br>Please arrive soon to maintain your position in the queue."
  }

  /** The SMS names the customer's token and shows the wait as `m:ss`. */
  lemma SmsTextShows(name: string, token: string, waitTime: int)
    ensures Contains(SmsText(name, token, waitTime), token)
    ensures Contains(SmsText(name, token, waitTime), FormatWait(waitTime))
  {
    ContainsBoth("Hello " + name + "! Your queue number ", token,
      " at Esca Optical is ready. Current wait time: ", FormatWait(waitTime),
      ". Please arrive soon to maintain your position.");
  }

  /** The e-mail text names the token and shows the wait as `m:ss` too. */
  lemma EmailTextShows(name: string, token: string, waitTime: int)
    ensures Contains(EmailText(name, token, waitTime), token)
    ensures Contains(EmailText(name, token, waitTime), FormatWait(waitTime))
  {
    ContainsBoth("Hello " + name + "!<br><br>Your queue number <strong>", token,
      "</strong> at Esca Optical is ready for service.<br><br>Current estimated wait time: <strong>",
      FormatWait(waitTime), "</strong><br><br>Please arrive soon to maintain your position in the queue.");
  }

  lemma ContainsBoth(a: string, x: string, b: string, y: string, c: string)
    ensures Contains(a + x + b + y + c, x) && Contains(a + x + b + y + c, y)
  {
    assert a + x + b + y + c == a + x + (b + y + c);
    ContainsInfix(a, x, b + y + c);
    ContainsInfix(a + x + b, y, c);
  }

  /** The subject is the fixed prefix, the token and the fixed suffix, so the
      token can be read back from it. */
  lemma SubjectReadsBack(token: string)
    ensures var s := EmailSubject(token);
      |s| == |token| + 36 && s[21..|s| - 15] == token
      && s[..21] == "Queue Update - Token " && s[|s| - 15..] == " | Esca Optical"
  {
  }

  predicate TwilioConfigured(env: Env) {
    env.twilioAccountSid != "" && env.twilioAuthToken != "" && env.twilioPhoneNumber != ""
  }

  /** The message the function sends for a body, or the error it throws
      before sending anything. */
  function Dispatch(b: RequestBody, env: Env): (r: Result<Outgoing>)
    ensures b.kind == "sms" ==> r == SmsDispatch(b, env)
    ensures b.kind == "email" ==> r == EmailDispatch(b, env)
    ensures b.kind != "sms" && b.kind != "email" ==> r == Err(InvalidType)
    ensures r.Ok? ==> b.kind == "sms" || b.kind == "email"
  {
    if b.kind == "sms" then SmsDispatch(b, env)
    else if b.kind == "email" then EmailDispatch(b, env)
    else Err(InvalidType)
  }

  /** The `sms` branch: a phone number is required, then the Twilio settings. */
  function SmsDispatch(b: RequestBody, env: Env): (r: Result<Outgoing>)
    ensures b.customerPhone == "" ==> r == Err(PhoneRequired)
    ensures b.customerPhone != "" && !TwilioConfigured(env) ==> r == Err(TwilioNotConfigured)
    ensures b.customerPhone != "" && TwilioConfigured(env) ==>
      r == Ok(SmsTo(b.customerPhone, SmsText(b.customerName, b.token, b.waitTime)))
  {
    if b.customerPhone == "" then Err(PhoneRequired)
    else if !TwilioConfigured(env) then Err(TwilioNotConfigured)
    else Ok(SmsTo(b.customerPhone, SmsText(b.customerName, b.token, b.waitTime)))
  }

  /** The `email` branch: an address is required, then the Resend key. */
  function EmailDispatch(b: RequestBody, env: Env): (r: Result<Outgoing>)
    ensures b.customerEmail == "" ==> r == Err(EmailRequired)
    ensures b.customerEmail != "" && env.resendApiKey == "" ==> r == Err(ResendNotConfigured)
    ensures b.customerEmail != "" && env.resendApiKey != "" ==>
      r == Ok(EmailTo(b.customerEmail, EmailSubject(b.token), EmailText(b.customerName, b.token, b.waitTime)))
  {
    if b.customerEmail == "" then Err(EmailRequired)
    else if env.resendApiKey == "" then Err(ResendNotConfigured)
    else Ok(EmailTo(b.customerEmail, EmailSubject(b.token), EmailText(b.customerName, b.token, b.waitTime)))
  }

  /** The error a refused request is thrown with. */
  function RefusalError(out: Outgoing, text: string): string {
    if out.SmsTo? then "Twilio SMS failed: " + text else "Resend email failed: " + text
  }

  /** `handler`: a preflight is answered with no body; any thrown error gives
      status 500 with `success: false`; a sent message gives status 200 with
      `success: true`, whether or not the activity-log insert (`logFails`)
      succeeds. `sent` is the message handed to the provider, if any. */
  method Handler(req: Request, env: Env, provider: ProviderReply, logFails: bool)
    returns (resp: Response, sent: Option<Outgoing>)
    ensures req.Preflight? ==> resp == Response(200, NullBody, CorsHeaders) && sent == None
    ensures !req.Preflight? ==> resp.headers == JsonHeaders
    ensures !req.Preflight? ==> (resp.status == 200 <==> resp.body.Success?)
    ensures !req.Preflight? ==> (resp.status == 500 <==> resp.body.Failure?)
    ensures req.Unreadable? ==> resp.body == Failure(req.error) && sent == None
    ensures req.Post? && Dispatch(req.body, env).Err? ==>
      resp == Response(500, Failure(Dispatch(req.body, env).message), JsonHeaders) && sent == None
    ensures req.Post? && Dispatch(req.body, env).Ok? ==> sent == Some(Dispatch(req.body, env).value)
    ensures req.Post? && sent.Some? && provider.Refused? ==>
      resp.body == Failure(RefusalError(sent.value, provider.text))
    ensures req.Post? && sent.Some? && provider.Accepted? ==>
      resp.body == Success(Upper(req.body.kind) + " notification sent successfully")
  {
    if req.Preflight? {
      return Response(200, NullBody, CorsHeaders), None;
    }
    if req.Unreadable? {
      return Response(500, Failure(req.error), JsonHeaders), None;
    }
    var b := req.body;
    var out := Dispatch(b, env);
    if out.Err? {
      return Response(500, Failure(out.message), JsonHeaders), None;
    }
    sent := Some(out.value);
    if provider.Refused? {
      return Response(500, Failure(RefusalError(out.value, provider.text)), JsonHeaders), sent;
    }
    // A failed activity-log insert (`logFails`) is only logged to the console.
    resp := Response(200, Success(Upper(b.kind) + " notification sent successfully"), JsonHeaders);
  }
}
