/** The contact form handler of the Flask application (`home()` in
    `app.py`): a POST strips the three form fields and answers with an error
    flash when one of them is empty, a success flash otherwise, and in both
    cases a redirect back to the home page; any other request renders the
    page. Flask itself (templates, the flash store, URL building) is reduced
    to the `Response` value the handler produces. */
module ContactForm {

  datatype Request = Request(httpMethod: string, form: map<string, string>)

  datatype Flash = Flash(message: string, category: string)

  datatype Response =
    | RenderTemplate(template: string)
    | RedirectWithFlash(endpoint: string, flash: Flash)

  const ErrorMessage := "Please fill in all fields."
  const SuccessMessage := "Thanks! Your message has been received. We\U{2019}ll get back to you shortly."

  /** Python's `str.isspace` for one character. */
  predicate IsSpace(c: char) {
    ('\t' <= c <= '\r') || ('\U{1C}' <= c <= '\U{1F}') || c == ' '
    || c == '\U{85}' || c == '\U{A0}' || c == '\U{1680}' || ('\U{2000}' <= c <= '\U{200A}')
    || c == '\U{2028}' || c == '\U{2029}' || c == '\U{202F}' || c == '\U{205F}' || c == '\U{3000}'
  }

  /** A field with nothing but white space in it (or nothing at all). */
  predicate Blank(s: string) {
    forall i :: 0 <= i < |s| ==> IsSpace(s[i])
  }

  /** `request.form.get(key, "")`. */
  function Field(form: map<string, string>, key: string): (v: string)
    ensures key !in form ==> v == ""
    ensures key in form ==> v == form[key]
  {
    if key in form then form[key] else ""
  }

  function StripLeading(s: string): (r: string)
    ensures |r| <= |s| && r == s[|s| - |r|..]
    ensures forall i :: 0 <= i < |s| - |r| ==> IsSpace(s[i])
    ensures r == [] || !IsSpace(r[0])
  {
    if |s| > 0 && IsSpace(s[0]) then
      var r := StripLeading(s[1..]);
      assert s[1..][|s| - 1 - |r|..] == s[|s| - |r|..];
      assert forall i :: 1 <= i < |s| - |r| ==> s[i] == s[1..][i - 1];
      r
    else s
  }

  function StripTrailing(s: string): (r: string)
    ensures |r| <= |s| && r == s[..|r|]
    ensures forall i :: |r| <= i < |s| ==> IsSpace(s[i])
    ensures r == [] || !IsSpace(r[|r| - 1])
  {
    if |s| > 0 && IsSpace(s[|s| - 1]) then StripTrailing(s[..|s| - 1]) else s
  }

  /** `str.strip()`: the text between the leading and the trailing white
      space. It is empty exactly when the text is blank. */
  function Strip(s: string): (r: string)
    ensures r == "" <==> Blank(s)
    ensures r != "" ==> !IsSpace(r[0]) && !IsSpace(r[|r| - 1])
    ensures exists pre, post :: s == pre + r + post && Blank(pre) && Blank(post)
  {
    var lead := StripLeading(s);
    var r := StripTrailing(lead);
    BlankAround(s, lead, r);
    var pre, post := s[..|s| - |lead|], lead[|r|..];
    assert s == pre + r + post && Blank(pre) && Blank(post);
    r
  }

  /** The white space `StripLeading` and `StripTrailing` remove, and the
      text is blank when nothing is left between it. */
  lemma BlankAround(s: string, lead: string, r: string)
    requires |lead| <= |s| && lead == s[|s| - |lead|..]
    requires forall i :: 0 <= i < |s| - |lead| ==> IsSpace(s[i])
    requires |r| <= |lead| && r == lead[..|r|]
    requires forall i :: |r| <= i < |lead| ==> IsSpace(lead[i])
    ensures s == s[..|s| - |lead|] + r + lead[|r|..]
    ensures Blank(s[..|s| - |lead|]) && Blank(lead[|r|..])
    ensures r == "" ==> Blank(s)
  {
    var pre := s[..|s| - |lead|];
    var post := lead[|r|..];
    assert lead == r + post;
    assert s == pre + lead;
    assert Blank(pre) by {
      forall i | 0 <= i < |pre|
        ensures IsSpace(pre[i])
      {
        assert pre[i] == s[i];
      }
    }
    assert Blank(post) by {
      forall i | 0 <= i < |post|
        ensures IsSpace(post[i])
      {
        assert post[i] == lead[|r| + i];
      }
    }
    if r == "" {
      forall i | 0 <= i < |s|
        ensures IsSpace(s[i])
      {
        if i >= |pre| {
          assert s[i] == post[i - |pre|];
        }
      }
    }
  }

  /** Stripping twice is stripping once. */
  lemma StripIsIdempotent(s: string)
    ensures Strip(Strip(s)) == Strip(s)
  {
    var r := Strip(s);
    if r != "" {
      assert StripLeading(r) == r;
      assert StripTrailing(r) == r;
    }
  }

  /** The route `/` for GET and POST. */
  function Home(req: Request): (resp: Response)
    ensures req.httpMethod != "POST" ==> resp == RenderTemplate("index.html")
    ensures req.httpMethod == "POST" ==> resp.RedirectWithFlash? && resp.endpoint == "home"
    ensures req.httpMethod == "POST" ==>
      (resp.flash == Flash(ErrorMessage, "error") <==>
         Blank(Field(req.form, "name")) || Blank(Field(req.form, "email")) || Blank(Field(req.form, "message")))
    ensures req.httpMethod == "POST" ==>
      (resp.flash == Flash(SuccessMessage, "success") <==>
         !Blank(Field(req.form, "name")) && !Blank(Field(req.form, "email")) && !Blank(Field(req.form, "message")))
  {
    if req.httpMethod == "POST" then
      var name := Strip(Field(req.form, "name"));
      var email := Strip(Field(req.form, "email"));
      var message := Strip(Field(req.form, "message"));
      if name == "" || email == "" || message == "" then
        RedirectWithFlash("home", Flash(ErrorMessage, "error"))
      else
        RedirectWithFlash("home", Flash(SuccessMessage, "success"))
    else
      RenderTemplate("index.html")
  }

  /** A missing field takes the error path. */
  lemma MissingFieldIsRejected(form: map<string, string>, key: string)
    requires key == "name" || key == "email" || key == "message"
    requires key !in form
    ensures Home(Request("POST", form)) == RedirectWithFlash("home", Flash(ErrorMessage, "error"))
  {
  }

  /** Only emptiness is checked: any non-blank e-mail text is accepted, so
      the same form with two different non-blank e-mail values gets the same
      answer. */
  lemma EmailFormatIsNotChecked(form: map<string, string>, e1: string, e2: string)
    requires !Blank(e1) && !Blank(e2)
    ensures Home(Request("POST", form["email" := e1])) == Home(Request("POST", form["email" := e2]))
  {
    assert Field(form["email" := e1], "name") == Field(form["email" := e2], "name");
    assert Field(form["email" := e1], "message") == Field(form["email" := e2], "message");
  }
}
