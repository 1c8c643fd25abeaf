/** The parts of an HTTP request and of flashed messages that the handlers read or produce. */
module Web {

  datatype HttpMethod = Get | Post

  /** A request: its method and its submitted form fields. */
  datatype Request = Request(verb: HttpMethod, form: map<string, string>)

  /** `request.form.get(key, "")`. */
  function FormGet(form: map<string, string>, key: string): (v: string)
    ensures key in form ==> v == form[key]
    ensures v == "" <==> key !in form || form[key] == ""
  {
    if key in form then form[key] else ""
  }

  /** A message queued by `flash(message, category)`. */
  datatype Flash = Flash(message: string, category: string)
}
