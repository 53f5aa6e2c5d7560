/** The metadata-only records of the Codex App Server bridge
    (internal/codexadapter/appserver_bridge.go) and what their identifiers are made from. */
module BridgeRecords {
  import opened Ordering

  /** What the bridge takes from outside: the keyed digest over a namespace and its parts, the
      three name patterns, the status classification, and how times and numbers are written. */
  datatype Rules = Rules(
    hmac: (string, seq<string>) -> string,
    skillName: string -> bool,
    identityPart: string -> bool,
    componentName: string -> bool,
    outcomeOf: (string, bool) -> string,
    timeText: int -> string,
    numeral: nat -> string)

  datatype Record = Record(
    recordId: string,
    idempotencyKey: string,
    observedAt: int,
    eventType: string,
    outcome: string,
    kind: string,
    tool: string,
    identity: string,
    identitySource: string,
    owner: string,
    upstream: string,
    sourceScope: string,
    duration: Option<int>,
    source: string,
    session: string,
    turn: string)

  const ADAPTER := "codex"
  const SCHEMA_VERSION := "0.145.0"
  const STARTED := "native_bridge_started"
  const TERMINAL := "native_bridge_terminal"
  const REDACTED := "redacted"
  const PLUGIN_READ := "native_bridge_plugin_read"

  function Pseudonym(r: Rules, namespace: string, parts: seq<string>): string
  {
    "hmac-sha256:" + r.hmac(namespace, parts)
  }

  /** No two namespaced part lists share a digest. */
  ghost predicate Keyed(r: Rules)
  {
    forall m, n, a, b {:trigger r.hmac(m, a), r.hmac(n, b)} :: r.hmac(m, a) == r.hmac(n, b) ==> m == n && a == b
  }

  lemma PseudonymInjective(r: Rules, m: string, a: seq<string>, n: string, b: seq<string>)
    requires Keyed(r) && Pseudonym(r, m, a) == Pseudonym(r, n, b)
    ensures m == n && a == b
  {
    assert Pseudonym(r, m, a)[12..] == r.hmac(m, a) && Pseudonym(r, n, b)[12..] == r.hmac(n, b);
  }

  /** The position of the last colon, or -1. */
  function LastColon(s: string): (i: int)
    ensures -1 <= i < |s|
  {
    if s == [] then -1 else if s[|s| - 1] == ':' then |s| - 1 else LastColon(s[..|s| - 1])
  }

  /** A skill's qualified name starts with the plugin that owns it. */
  function SkillOwner(kind: string, tool: string): string
  {
    if kind == "skill" && LastColon(tool) > 0 then tool[..LastColon(tool)] else ""
  }

  function SourceKey(r: Rules, nativeId: string): string
  {
    Pseudonym(r, "source-record/1", [ADAPTER, nativeId])
  }

  function SafeRecord(r: Rules, nativeId: string, sessionId: string, turnId: string, eventType: string, outcome: string,
                      tool: string, kind: string, observedAt: int, sequence: nat): Record
  {
    Record(
      Pseudonym(r, "record/1", [ADAPTER, sessionId, nativeId, "0"]),
      Pseudonym(r, "idempotency/1",
                [ADAPTER, "evidence_bridge", nativeId, r.timeText(observedAt), r.numeral(sequence)]),
      observedAt, eventType, outcome, kind, tool, tool, "native_bridge", SkillOwner(kind, tool), "", "", None,
      SourceKey(r, nativeId),
      Pseudonym(r, "session/1", [ADAPTER, sessionId]),
      if turnId != "" then Pseudonym(r, "turn/1", [ADAPTER, sessionId, turnId]) else "")
  }
}
