/** What the `useToast` and `useAuth` hooks do with the value `useContext` finds. */
module ReactContext {
  import opened Wrappers

  /**
   * `if (!ctx) throw new Error(message); return ctx;`: outside its provider
   * the context value is missing and the hook throws.
   */
  function RequireProvider<C>(ctx: Option<C>, message: string): (r: Result<C, string>)
    ensures r.Err? <==> ctx.None?
    ensures ctx.Some? ==> r == Ok(ctx.value)
    ensures ctx.None? ==> r.error == message
  {
    match ctx
    case None => Err(message)
    case Some(c) => Ok(c)
  }
}
