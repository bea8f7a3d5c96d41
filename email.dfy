/** The email sending request of mailtrap/send_email.go and the checks
    `validate` makes before anything is sent. */
module Email {
  import opened Common

  datatype EmailAddress = EmailAddress(email: string, name: string)

  datatype EmailAttachment = EmailAttachment(
    content: string,      // base64 text, required
    attachType: string,
    filename: string,     // required
    disposition: string,
    contentId: string)

  datatype SendEmailRequest = SendEmailRequest(
    from: EmailAddress,
    to: seq<EmailAddress>,
    cc: seq<EmailAddress>,
    bcc: seq<EmailAddress>,
    attachments: seq<EmailAttachment>,
    headers: map<string, string>,
    customVars: map<string, string>,
    subject: string,
    text: string,
    html: string,
    category: string)

  const FromRequired := "'from' address is required"
  const ToRequired := "'to' address is required"
  const ToEmailRequired := "'email' is required in 'to' address"
  const ContentRequired := "'content' is required in attachment"
  const FilenameRequired := "'filename' is required in attachment"
  const ProblemSeparator := "; "
  const SubjectRequired := "'subject' is required"
  const BodyRequired := "one of 'text' or 'html' is required"
  const CategoryMaxLength := 255
  /** The literal parts of the template "'category' is greater than %d chars". */
  const CategoryTooLongTemplate := ["'category' is greater than ", " chars"]
  const CategoryTooLong := Format(CategoryTooLongTemplate, [CategoryMaxLength])

  /** The problems validate reports for one attachment, in its order. */
  function ProblemsOf(a: EmailAttachment): seq<string> {
    (if a.content == "" then [ContentRequired] else []) + (if a.filename == "" then [FilenameRequired] else [])
  }

  /** The problems validate collects over a list of attachments, in order. */
  function AttachmentProblems(atts: seq<EmailAttachment>): seq<string>
    decreases |atts|
  {
    if atts == [] then [] else AttachmentProblems(atts[..|atts| - 1]) + ProblemsOf(atts[|atts| - 1])
  }

  /** The error validate returns: the first of its checks that fails. */
  function ValidationError(r: SendEmailRequest): Option<string> {
    if r.from.email == "" then Some(FromRequired)
    else if |r.to| == 0 then Some(ToRequired)
    else if exists i :: 0 <= i < |r.to| && r.to[i].email == "" then Some(ToEmailRequired)
    else if |r.attachments| > 0 && |AttachmentProblems(r.attachments)| > 0 then
      Some(Join(AttachmentProblems(r.attachments), ProblemSeparator))
    else if r.subject == "" then Some(SubjectRequired)
    else if r.text == "" && r.html == "" then Some(BodyRequired)
    else if |r.category| > CategoryMaxLength then Some(CategoryTooLong)
    else None
  }

  predicate Complete(a: EmailAttachment) { a.content != "" && a.filename != "" }

  /** What a sendable request is, field by field. */
  predicate Sendable(r: SendEmailRequest) {
    && r.from.email != ""
    && |r.to| > 0
    && (forall i :: 0 <= i < |r.to| ==> r.to[i].email != "")
    && (forall i :: 0 <= i < |r.attachments| ==> Complete(r.attachments[i]))
    && r.subject != ""
    && (r.text != "" || r.html != "")
    && |r.category| <= CategoryMaxLength
  }

  /** validate, with the loops of the source. */
  method Validate(r: SendEmailRequest) returns (err: Option<string>)
    ensures err == ValidationError(r)
  {
    if r.from.email == "" {
      return Some(FromRequired);
    }
    if |r.to| == 0 {
      return Some(ToRequired);
    }
    for i := 0 to |r.to|
      invariant forall j :: 0 <= j < i ==> r.to[j].email != ""
    {
      if r.to[i].email == "" {
        return Some(ToEmailRequired);
      }
    }
    if |r.attachments| > 0 {
      var errMsg: seq<string> := [];
      for i := 0 to |r.attachments|
        invariant errMsg == AttachmentProblems(r.attachments[..i])
      {
        var v := r.attachments[i];
        assert r.attachments[..i + 1][..i] == r.attachments[..i];
        if v.content == "" {
          errMsg := errMsg + [ContentRequired];
        }
        if v.filename == "" {
          errMsg := errMsg + [FilenameRequired];
        }
      }
      assert r.attachments[..|r.attachments|] == r.attachments;
      if |errMsg| > 0 {
        return Some(Join(errMsg, ProblemSeparator));
      }
    }
    if r.subject == "" {
      return Some(SubjectRequired);
    }
    if r.text == "" && r.html == "" {
      return Some(BodyRequired);
    }
    if |r.category| > CategoryMaxLength {
      return Some(CategoryTooLong);
    }
    return None;
  }

  /** A message is among the attachment problems exactly when some
      attachment reports it. */
  lemma {:induction false} AttachmentProblemsIn(atts: seq<EmailAttachment>, m: string)
    ensures m in AttachmentProblems(atts) <==> exists i :: 0 <= i < |atts| && m in ProblemsOf(atts[i])
    decreases |atts|
  {
    if atts != [] {
      var init := atts[..|atts| - 1];
      AttachmentProblemsIn(init, m);
      assert forall i :: 0 <= i < |init| ==> init[i] == atts[i];
      assert AttachmentProblems(atts) == AttachmentProblems(init) + ProblemsOf(atts[|atts| - 1]);
    }
  }

  /** Each attachment adds at most two problems. */
  lemma {:induction false} AttachmentProblemsBound(atts: seq<EmailAttachment>)
    ensures |AttachmentProblems(atts)| <= 2 * |atts|
    decreases |atts|
  {
    if atts != [] {
      AttachmentProblemsBound(atts[..|atts| - 1]);
    }
  }

  /** The attachment problems name exactly the missing fields: a content
      problem iff some attachment lacks content, a filename problem iff some
      attachment lacks a filename, and nothing else. */
  lemma AttachmentProblemsExact(atts: seq<EmailAttachment>)
    ensures forall m :: m in AttachmentProblems(atts) ==> m == ContentRequired || m == FilenameRequired
    ensures ContentRequired in AttachmentProblems(atts) <==> exists i :: 0 <= i < |atts| && atts[i].content == ""
    ensures FilenameRequired in AttachmentProblems(atts) <==> exists i :: 0 <= i < |atts| && atts[i].filename == ""
  {
    forall m | m in AttachmentProblems(atts)
      ensures m == ContentRequired || m == FilenameRequired
    {
      AttachmentProblemsIn(atts, m);
    }
    assert ContentRequired != FilenameRequired by {
      assert |ContentRequired| != |FilenameRequired|;
    }
    AttachmentProblemsIn(atts, ContentRequired);
    AttachmentProblemsIn(atts, FilenameRequired);
  }

  /** There is no attachment problem exactly when every attachment has its
      content and its filename. */
  lemma AttachmentProblemsNone(atts: seq<EmailAttachment>)
    ensures |AttachmentProblems(atts)| == 0 <==> forall i :: 0 <= i < |atts| ==> Complete(atts[i])
  {
    AttachmentProblemsExact(atts);
    if |AttachmentProblems(atts)| > 0 {
      var m := AttachmentProblems(atts)[0];
      assert m in AttachmentProblems(atts);
    }
  }

  /** validate accepts a request exactly when it is sendable. */
  lemma ValidIff(r: SendEmailRequest)
    ensures ValidationError(r).None? <==> Sendable(r)
  {
    AttachmentProblemsNone(r.attachments);
  }

  /** An attachment missing both its content and its filename is reported
      with both messages, in that order, joined by "; ". */
  lemma AttachmentMissingBoth(r: SendEmailRequest)
    requires r.from.email != "" && |r.to| > 0
    requires forall i :: 0 <= i < |r.to| ==> r.to[i].email != ""
    requires |r.attachments| == 1 && r.attachments[0].content == "" && r.attachments[0].filename == ""
    ensures ValidationError(r) == Some(ContentRequired + ProblemSeparator + FilenameRequired)
  {
    var atts := r.attachments;
    assert atts[..0] == [];
    assert AttachmentProblems(atts) == [ContentRequired, FilenameRequired];
    assert Join([ContentRequired, FilenameRequired], ProblemSeparator)
        == ContentRequired + ProblemSeparator + Join([FilenameRequired], ProblemSeparator);
  }

  /** The problems of several attachments are reported attachment by
      attachment: those of the earlier ones come first. */
  lemma {:induction false} AttachmentProblemsAppend(a: seq<EmailAttachment>, b: seq<EmailAttachment>)
    ensures AttachmentProblems(a + b) == AttachmentProblems(a) + AttachmentProblems(b)
    decreases |b|
  {
    if b == [] {
      assert a + b == a;
    } else {
      var init := b[..|b| - 1];
      AttachmentProblemsAppend(a, init);
      assert (a + b)[..|a + b| - 1] == a + init;
      assert (a + b)[|a + b| - 1] == b[|b| - 1];
    }
  }

  /** Checks run in order: an attachment problem is reported even when the
      subject and both bodies are missing too. */
  lemma AttachmentBeforeSubject(r: SendEmailRequest)
    requires r.from.email != "" && |r.to| > 0
    requires forall i :: 0 <= i < |r.to| ==> r.to[i].email != ""
    requires exists i :: 0 <= i < |r.attachments| && !Complete(r.attachments[i])
    ensures ValidationError(r).Some? && ValidationError(r) != Some(SubjectRequired)
    ensures ValidationError(r) != Some(BodyRequired)
  {
    AttachmentProblemsNone(r.attachments);
    AttachmentProblemsExact(r.attachments);
    var p := AttachmentProblems(r.attachments);
    assert p[0] == ContentRequired || p[0] == FilenameRequired by {
      assert p[0] in p;
    }
    JoinPrefix(p, ProblemSeparator);
    var m := Join(p, ProblemSeparator);
    assert ValidationError(r) == Some(m);
    assert m != SubjectRequired by {
      assert |m| >= |p[0]| > |SubjectRequired|;
    }
    assert m != BodyRequired by {
      assert m[0] == p[0][0] == '\'' != BodyRequired[0];
    }
  }

  /** strings.Join starts with the first part. */
  lemma JoinPrefix(parts: seq<string>, sep: string)
    requires |parts| > 0
    ensures |Join(parts, sep)| >= |parts[0]| && Join(parts, sep)[..|parts[0]|] == parts[0]
  {
    if |parts| > 1 {
      assert Join(parts, sep) == parts[0] + (sep + Join(parts[1..], sep));
    }
  }

  /** Copies, blind copies, headers and custom variables are never
      checked. */
  lemma UncheckedFields(r: SendEmailRequest, cc: seq<EmailAddress>, bcc: seq<EmailAddress>,
                        headers: map<string, string>, customVars: map<string, string>)
    ensures ValidationError(r.(cc := cc, bcc := bcc, headers := headers, customVars := customVars)) == ValidationError(r)
  {
  }

  /** The category limit is inclusive: 255 characters pass, 256 fail. */
  lemma CategoryLimit(r: SendEmailRequest)
    requires Sendable(r.(category := ""))
    ensures |r.category| <= 255 ==> ValidationError(r).None?
    ensures |r.category| > 255 ==> ValidationError(r) == Some(CategoryTooLong)
  {
    ValidIff(r);
    ValidIff(r.(category := ""));
  }

  /** The category message reads "'category' is greater than 255 chars". */
  lemma CategoryMessage()
    ensures CategoryTooLong == "'category' is greater than 255 chars"
  {
    assert NatString(255) == "255" by {
      assert NatString(25) == "25";
    }
  }

  /** The category message is the source's template
      "'category' is greater than %d chars" filled with the limit. */
  lemma CategoryTemplate()
    ensures var t := "'category' is greater than %d chars";
      Template(t) && Verbs(t) == 1 && Sprintf(t, [CategoryMaxLength]) == CategoryTooLong
  {
    assert TemplateText(CategoryTooLongTemplate) == "'category' is greater than %d chars";
    SprintfFills(CategoryTooLongTemplate, [CategoryMaxLength]);
  }
}
