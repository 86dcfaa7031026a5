// The verified caller of a request.
module Identity {
  import opened Wrappers

  // The caller's subject; None is a context without an identity.
  function SubjectOf(identity: Option<string>): string {
    if identity.Some? then identity.value else ""
  }
}
