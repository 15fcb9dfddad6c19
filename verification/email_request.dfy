// Email events and their conversion into a Resend request.

module EmailRequest {
  import opened Common

  datatype Email = Email(
    from: string, replyTo: Option<string>,
    to: Option<seq<string>>,   // None when the event has no to_addresses at all
    cc: seq<string>, bcc: seq<string>, subject: string,
    bodyHtml: Option<string>, bodyText: Option<string>, attachments: Json,
    templateId: Option<string>, templateVars: Json)

  datatype Attachment = Attachment(filename: string, content: string)

  type Vars = map<string, string>

  datatype Template = Template(id: string, vars: Vars)

  datatype ResendRequest = ResendRequest(
    from: string, to: seq<string>, cc: seq<string>, bcc: seq<string>, subject: string, replyTo: string,
    attachments: seq<Attachment>, template: Option<Template>, html: string, text: string)

  // Configuration, and JSON decoding as a parameter.
  datatype Codec = Codec(
    senderDomains: seq<string>,
    parseAttachments: Json -> Option<seq<Attachment>>,
    parseVars: Json -> Option<Vars>)

  datatype Refusal =
    | FromRequired | FromNotAllowed | RecipientRequired | SubjectRequired
    | BodyRequired | TwoBodies | BadAttachments | BadTemplateVars

  // Unicode white space, which strings.TrimSpace strips.
  predicate IsSpace(c: char) {
    var u := c as int;
    || 0x09 <= u <= 0x0D || u == 0x20 || u == 0x85 || u == 0xA0 || u == 0x1680
    || 0x2000 <= u <= 0x200A || u == 0x2028 || u == 0x2029 || u == 0x202F || u == 0x205F || u == 0x3000
  }

  predicate Blank(s: string) {
    forall i :: 0 <= i < |s| ==> IsSpace(s[i])
  }

  predicate HasSuffix(s: string, suffix: string) {
    |suffix| <= |s| && s[|s| - |suffix|..] == suffix
  }

  lemma SuffixMeans(s: string, suffix: string)
    ensures HasSuffix(s, suffix) <==> exists prefix :: s == prefix + suffix
  {
    if HasSuffix(s, suffix) {
      assert s == s[..|s| - |suffix|] + suffix;
    }
  }

  // The White_Space characters of Unicode.
  lemma SpacesAre(c: char)
    ensures IsSpace(c) <==> c as int in {
      9, 10, 11, 12, 13, 32, 133, 160, 5760, 8192, 8193, 8194, 8195, 8196, 8197, 8198, 8199, 8200, 8201, 8202,
      8232, 8233, 8239, 8287, 12288}
  {
  }

  predicate AllowedSender(from: string, domains: seq<string>) {
    exists i :: 0 <= i < |domains| && HasSuffix(from, domains[i])
  }

  function Recipients(e: Email): seq<string> {
    (if e.to.Some? then e.to.value else []) + e.cc + e.bcc
  }

  predicate HasTemplate(e: Email) {
    e.templateId.Some? && !Blank(e.templateId.value)
  }

  predicate HasBody(e: Email) {
    e.bodyHtml.Some? || e.bodyText.Some?
  }

  function OrEmpty(s: Option<string>): string {
    if s.Some? then s.value else ""
  }

  // Nothing to parse counts as an empty list.
  function Attachments(codec: Codec, e: Email): Option<seq<Attachment>> {
    if e.attachments == "" then Some([]) else codec.parseAttachments(e.attachments)
  }

  function TemplateVars(codec: Codec, e: Email): Option<Vars> {
    if e.templateVars == "" then Some(map[]) else codec.parseVars(e.templateVars)
  }

  function Convert(codec: Codec, e: Email): Result<ResendRequest, Refusal> {
    if Blank(e.from) then Failure(FromRequired)
    else if !AllowedSender(e.from, codec.senderDomains) then Failure(FromNotAllowed)
    else if Recipients(e) == [] then Failure(RecipientRequired)
    else if Blank(e.subject) then Failure(SubjectRequired)
    else if !HasTemplate(e) && !HasBody(e) then Failure(BodyRequired)
    else if HasTemplate(e) && HasBody(e) then Failure(TwoBodies)
    else if Attachments(codec, e).None? then Failure(BadAttachments)
    else
      var base := ResendRequest(
        e.from, if e.to.Some? then e.to.value else [], e.cc, e.bcc, e.subject, OrEmpty(e.replyTo),
        Attachments(codec, e).value, None, "", "");
      if !HasTemplate(e) then
        Success(base.(html := OrEmpty(e.bodyHtml), text := OrEmpty(e.bodyText)))
      else if TemplateVars(codec, e).None? then Failure(BadTemplateVars)
      else Success(base.(template := Some(Template(e.templateId.value, TemplateVars(codec, e).value))))
  }

  // What Resend may rely on in every request it is sent.
  predicate Sendable(codec: Codec, r: ResendRequest) {
    && (exists i :: 0 <= i < |codec.senderDomains| && HasSuffix(r.from, codec.senderDomains[i]))
    && |r.to| + |r.cc| + |r.bcc| > 0
    && (exists i :: 0 <= i < |r.subject| && !IsSpace(r.subject[i]))
    && (r.template.Some? ==> r.html == "" && r.text == "" && !Blank(r.template.value.id))
  }

  // The event names a template, with something in the name.
  predicate NamesTemplate(e: Email) {
    e.templateId != None && exists i :: 0 <= i < |e.templateId.value| && !IsSpace(e.templateId.value[i])
  }

  // The request says what the event said, once its optional parts are decoded.
  predicate Represents(codec: Codec, r: ResendRequest, e: Email) {
    && r.from == e.from && r.subject == e.subject && r.cc == e.cc && r.bcc == e.bcc
    && (if e.replyTo.Some? then e.replyTo == Some(r.replyTo) else r.replyTo == "")
    && Some(r.to) == (if e.to.Some? then e.to else Some([]))
    && (e.attachments != "" ==> codec.parseAttachments(e.attachments) == Some(r.attachments))
    && (e.attachments == "" ==> r.attachments == [])
    && (r.template != None <==> NamesTemplate(e))
    && (r.template == None <==> e.bodyHtml != None || e.bodyText != None)
    && (r.template == None ==>
          && (e.bodyHtml == Some(r.html) || (e.bodyHtml == None && r.html == ""))
          && (e.bodyText == Some(r.text) || (e.bodyText == None && r.text == "")))
    && (r.template.Some? ==>
          && e.templateId == Some(r.template.value.id)
          && (e.templateVars != "" ==> codec.parseVars(e.templateVars) == Some(r.template.value.vars))
          && (e.templateVars == "" ==> r.template.value.vars == map[]))
  }

  // An email converts exactly when it has a non-blank sender and some request
  // is both a rendering of it and sendable; the conversion yields such a
  // request, so every request it yields carries an allowed sender, a recipient,
  // a non-blank subject, all attachments in order, and the template or the body
  // fields of the email, of which it has exactly one kind.
  lemma ConvertsExactlyTheSendable(codec: Codec, e: Email)
    ensures Convert(codec, e).Success? <==>
            !Blank(e.from) && exists r :: Sendable(codec, r) && Represents(codec, r, e)
    ensures Convert(codec, e).Success? ==>
            var r := Convert(codec, e).value; Sendable(codec, r) && Represents(codec, r, e)
  {
    if r :| Sendable(codec, r) && Represents(codec, r, e) {
      SendableConverts(codec, e, r);
    }
    if Convert(codec, e).Success? {
      ConvertedIsSendable(codec, e);
    }
  }

  lemma SendableConverts(codec: Codec, e: Email, r: ResendRequest)
    requires Sendable(codec, r) && Represents(codec, r, e)
    ensures !Blank(e.from) ==> Convert(codec, e).Success?
  {
    assert |Recipients(e)| == |r.to| + |r.cc| + |r.bcc|;
  }

  lemma ConvertedIsSendable(codec: Codec, e: Email)
    requires Convert(codec, e).Success?
    ensures var r := Convert(codec, e).value; Sendable(codec, r) && Represents(codec, r, e)
    ensures !Blank(e.from)
  {
    var r := Convert(codec, e).value;
    assert |Recipients(e)| == |r.to| + |r.cc| + |r.bcc|;
  }

  // A refusal names something that is wrong.
  lemma RefusalsAreTrue(codec: Codec, e: Email)
    requires Convert(codec, e).Failure?
    ensures match Convert(codec, e).error
            case FromRequired => forall i :: 0 <= i < |e.from| ==> IsSpace(e.from[i])
            case FromNotAllowed => forall d :: d in codec.senderDomains ==> !HasSuffix(e.from, d)
            case RecipientRequired => e.to in {None, Some([])} && e.cc == [] && e.bcc == []
            case SubjectRequired => forall i :: 0 <= i < |e.subject| ==> IsSpace(e.subject[i])
            case BodyRequired => !NamesTemplate(e) && e.bodyHtml == None && e.bodyText == None
            case TwoBodies => NamesTemplate(e) && (e.bodyHtml != None || e.bodyText != None)
            case BadAttachments => e.attachments != "" && codec.parseAttachments(e.attachments) == None
            case BadTemplateVars => NamesTemplate(e) && e.templateVars != "" && codec.parseVars(e.templateVars) == None
  {
  }

  // Something to read: a template, or a body that is not empty.
  predicate HasContent(r: ResendRequest) {
    r.template.Some? || r.html != "" || r.text != ""
  }

  // The check for a body only asks whether a field is present. So a request has
  // content exactly when the email has a template or a body field that is not
  // empty.
  lemma ContentExactlyIfGiven(codec: Codec, e: Email)
    requires Convert(codec, e).Success?
    ensures HasContent(Convert(codec, e).value) <==>
            NamesTemplate(e) || e.bodyHtml !in {None, Some("")} || e.bodyText !in {None, Some("")}
  {
    ConvertsExactlyTheSendable(codec, e);
  }

  // An email whose only body is the empty string converts to a request with
  // neither template nor text.
  lemma EmptyBodyConverts(codec: Codec, from: string, to: string)
    requires !Blank(from) && AllowedSender(from, codec.senderDomains)
    ensures var e := Email(from, None, Some([to]), [], [], "Hello", Some(""), None, "", None, "");
            Convert(codec, e).Success? && !HasContent(Convert(codec, e).value)
  {
    assert !IsSpace("Hello"[0]);
  }

  // ---- The conversion as the service runs it ----

  method TrimsToNothing(s: string) returns (blank: bool)
    ensures blank == Blank(s)
  {
    for i := 0 to |s|
      invariant forall j :: 0 <= j < i ==> IsSpace(s[j])
    {
      if !IsSpace(s[i]) {
        return false;
      }
    }
    return true;
  }

  method SenderAllowed(from: string, domains: seq<string>) returns (allowed: bool)
    ensures allowed == AllowedSender(from, domains)
  {
    allowed := false;
    for i := 0 to |domains|
      invariant !allowed && forall j :: 0 <= j < i ==> !HasSuffix(from, domains[j])
    {
      if HasSuffix(from, domains[i]) {
        allowed := true;
        break;
      }
    }
  }

  method EmailToResendRequest(codec: Codec, e: Email) returns (r: Result<ResendRequest, Refusal>)
    ensures r == Convert(codec, e)
  {
    var blank := TrimsToNothing(e.from);
    if blank {
      return Failure(FromRequired);
    }
    var allowed := SenderAllowed(e.from, codec.senderDomains);
    if !allowed {
      return Failure(FromNotAllowed);
    }
    var to := if e.to.Some? then e.to.value else [];
    if |to| == 0 && |e.cc| == 0 && |e.bcc| == 0 {
      return Failure(RecipientRequired);
    }
    blank := TrimsToNothing(e.subject);
    if blank {
      return Failure(SubjectRequired);
    }
    var hasTemplate := false;
    if e.templateId.Some? {
      blank := TrimsToNothing(e.templateId.value);
      hasTemplate := !blank;
    }
    var hasBody := e.bodyHtml.Some? || e.bodyText.Some?;
    if !hasTemplate && !hasBody {
      return Failure(BodyRequired);
    }
    if hasTemplate && hasBody {
      return Failure(TwoBodies);
    }
    var attachments: seq<Attachment> := [];
    if |e.attachments| > 0 {
      var parsed := codec.parseAttachments(e.attachments);
      if parsed.None? {
        return Failure(BadAttachments);
      }
      for i := 0 to |parsed.value|
        invariant attachments == parsed.value[..i]
      {
        attachments := attachments + [parsed.value[i]];
      }
      assert attachments == parsed.value;
    }
    var request := ResendRequest(
      e.from, to, e.cc, e.bcc, e.subject, OrEmpty(e.replyTo), attachments, None, "", "");
    if hasTemplate {
      var vars: Vars := map[];
      if |e.templateVars| > 0 {
        var parsed := codec.parseVars(e.templateVars);
        if parsed.None? {
          return Failure(BadTemplateVars);
        }
        vars := parsed.value;
      }
      request := request.(template := Some(Template(e.templateId.value, vars)));
    } else {
      request := request.(html := OrEmpty(e.bodyHtml), text := OrEmpty(e.bodyText));
    }
    return Success(request);
  }
}
