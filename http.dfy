/** A request as the handlers see it: a plain page load, or a form submission. */
module Http {
  datatype Request<F> = Get | Post(form: F)
}
