/** apps/local-agent/gate.ts: what a call needs, the cap in force, and admission against it. */
module Gate {
  import opened Lists

  const DEFAULT_CAP_TOKENS: nat := 2_000_000
  const MAX_CAP_TOKENS: nat := 10_000_000
  const UNKNOWN_CALL_TOKENS: nat := 50_000

  /** What a call is charged before it runs: its usage is unknown, and a token is at least a byte. */
  function CallNeed(promptBytes: nat): nat {
    UNKNOWN_CALL_TOKENS + promptBytes
  }

  datatype Approvals = Approvals(capTokens: Option<nat>, models: seq<string>)

  datatype Settings = Settings(capTokens: nat, capConfigured: bool) {
    /** As `readSettings` starts a runner: unset, the cap is the default; set, at most the highest there is. */
    predicate Started() {
      if capConfigured then capTokens <= MAX_CAP_TOKENS else capTokens == DEFAULT_CAP_TOKENS
    }
  }

  function CapInForce(settings: Settings, approved: Approvals): nat {
    if !settings.capConfigured then
      var cap := approved.capTokens.GetOr(settings.capTokens);
      if cap < MAX_CAP_TOKENS then cap else MAX_CAP_TOKENS
    else if settings.capTokens > DEFAULT_CAP_TOKENS && approved.capTokens != Some(settings.capTokens) then DEFAULT_CAP_TOKENS
    else settings.capTokens
  }

  /** A cap above the default is one the owner's yes names now, and never above the highest there is. */
  lemma {:induction false} RaisedCapIsApproved(settings: Settings, approved: Approvals)
    requires settings.Started()
    ensures CapInForce(settings, approved) <= MAX_CAP_TOKENS
    ensures CapInForce(settings, approved) > DEFAULT_CAP_TOKENS ==>
              approved.capTokens.Some? && CapInForce(settings, approved) <= approved.capTokens.value
  {
  }

  /** A configured cap holds, above the default only while the owner's yes names it; unset, the yes or the runner's own does, up to the highest. */
  lemma {:induction false} CapInForceIs(settings: Settings, approved: Approvals, cap: nat)
    ensures CapInForce(settings, approved) == cap <==>
              if settings.capConfigured then
                (cap == settings.capTokens && (cap <= 2_000_000 || approved.capTokens == Some(cap)))
                || (cap == 2_000_000 < settings.capTokens && approved.capTokens != Some(settings.capTokens))
              else
                && cap <= 10_000_000
                && (cap < 10_000_000 ==> cap == approved.capTokens.GetOr(settings.capTokens))
                && (cap == 10_000_000 ==> approved.capTokens.GetOr(settings.capTokens) >= cap)
  {
  }

  datatype Refusal =
    | CapReached | ModelNotApproved | PlanLimit | GptFailed | SignedOut | WeekReserved | UsageUnknown | MachineBusy | SendLapsed

  datatype Decision = Admitted(tokensLeft: nat) | Declined(code: Refusal)

  /** Checked in this order, before anything runs; `total` is the ledger's against that cap. */
  function Decide(defaultModel: string, approved: Approvals, cap: nat, total: nat, model: string, need: nat): Decision {
    if model != defaultModel && model !in approved.models then Declined(ModelNotApproved)
    else if cap - total < need then Declined(CapReached)
    else Admitted(cap - total)
  }
}
