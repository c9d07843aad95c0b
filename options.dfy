/**
 * Options of a queue and how the queue resolves them: the caller's options
 * are laid over a default record whose only entry is `prefix: "bull"`, as a
 * JavaScript object spread `{ prefix: 'bull', ...opts }` does.
 */
module Options {
  import opened Wrappers

  /** Connection settings are passed through to the connection untouched; an opaque identifier here. */
  type ConnectionOptions = nat

  /** The recognised options; an absent property is `None`. */
  datatype QueueBaseOptions = QueueBaseOptions(prefix: Option<string>, connection: Option<ConnectionOptions>)

  const DefaultPrefix: string := "bull"

  /** The record the caller's options are spread over. */
  const Defaults: QueueBaseOptions := QueueBaseOptions(Some(DefaultPrefix), None)

  /** `{ ...under, ...over }`: every property `over` has wins, the others come from `under`. */
  function Spread(under: QueueBaseOptions, over: QueueBaseOptions): QueueBaseOptions
  {
    QueueBaseOptions(
      if over.prefix.Some? then over.prefix else under.prefix,
      if over.connection.Some? then over.connection else under.connection)
  }

  /** The options a queue keeps: the caller's, with the default prefix underneath. */
  function Resolve(opts: QueueBaseOptions): (r: QueueBaseOptions)
    ensures r.prefix.Some?
    ensures r.prefix.value == if opts.prefix.Some? then opts.prefix.value else DefaultPrefix
    ensures r.connection == opts.connection
  {
    Spread(Defaults, opts)
  }

  /** Resolving again changes nothing: the resolved options already carry a prefix. */
  lemma ResolveIdempotent(opts: QueueBaseOptions)
    ensures Resolve(Resolve(opts)) == Resolve(opts)
  {
  }
}
