/** The part of the server configuration that the routed lifecycle and the index build read. */
module ServerConfig {
  import opened Common

  datatype Mode = AlwaysOn | Managed | Manual | Disabled

  datatype RuntimeConfig = RuntimeConfig(startupSeconds: int, shutdownSeconds: int, idleSeconds: Option<int>)

  /** One server entry. Sub-records the lifecycle only compares for equality are kept as text. */
  datatype ServerEntry = ServerEntry(
    id: string, name: string, mode: Mode, transport: string, environment: string,
    runtime: RuntimeConfig, logging: string, hidden: seq<string>)
  {
    /** Seconds of inactivity before a managed server may be stopped; zero means never. */
    function IdleTimeout(default: int): nat {
      var n := if runtime.idleSeconds.Some? then runtime.idleSeconds.value else default;
      if n <= 0 then 0 else n
    }

    predicate ToolExposed(tool: string) {
      tool !in hidden
    }
  }

  /** Two entries for which the same running server will do: name, mode, transport, environment and runtime agree. */
  predicate SameRuntime(x: ServerEntry, y: ServerEntry) {
    x.name == y.name && x.mode == y.mode && x.transport == y.transport && x.environment == y.environment && x.runtime == y.runtime
  }

  /** Whether replacing one entry by another requires the running server to be replaced too. */
  predicate RuntimeAffectingChange(before: ServerEntry, after: ServerEntry) {
    || before.name != after.name
    || before.mode != after.mode
    || before.transport != after.transport
    || before.environment != after.environment
    || before.runtime != after.runtime
  }

  /** The timeout is the server's own, or else the default one; a negative one means never, like zero. */
  lemma IdleTimeoutMeans(entry: ServerEntry, default: int)
    ensures entry.runtime.idleSeconds.Some? ==> entry.IdleTimeout(default) == Max(0, entry.runtime.idleSeconds.value)
    ensures entry.runtime.idleSeconds.None? ==> entry.IdleTimeout(default) == Max(0, default)
  {
  }
}
