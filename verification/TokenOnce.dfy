/**
 * At most once: in every interleaving a request gets past its deletion once, a code
 * is redeemed once, and a code yields one token response.
 */
module TokenOnce {
  import opened Common
  import opened TokenProtocol

  ghost predicate NoRepeats<T>(s: seq<T>) {
    forall i, j :: 0 <= i < j < |s| ==> s[i] != s[j]
  }

  // ----- Requests -----

  ghost predicate RequestInv(s: State) {
    && NoRepeats(s.requests.passed)
    && (forall id :: id in s.store.authReqs ==>
                       id in s.used && id !in s.requests.passed && s.store.authReqs[id].id == id)
    && (forall id :: id in s.requests.passed ==> id in s.used)
  }

  ghost predicate KeepsRequests(s: State, r: State) {
    r.store.authReqs == s.store.authReqs && r.requests == s.requests && s.used <= r.used
  }

  lemma LoginKeepsRequests(s: State, a: Action)
    requires RequestInv(s) && IsLogin(a)
    ensures RequestInv(Apply(s, a))
  {
  }

  lemma ApprovalKeepsRequests(s: State, a: Action)
    requires RequestInv(s) && IsApproval(a)
    ensures RequestInv(Apply(s, a))
  {
  }

  lemma RedeemFrame(s: State, a: Action)
    requires IsRedeem(a)
    ensures KeepsRequests(s, Apply(s, a))
  {
  }

  lemma SessionFrame(s: State, a: Action)
    requires IsSession(a)
    ensures KeepsRequests(s, Apply(s, a))
  {
  }

  lemma RefreshFrame(s: State, a: Action)
    requires IsRefresh(a) || IsRevoke(a)
    ensures KeepsRequests(s, Apply(s, a))
  {
  }

  lemma StepKeepsRequests(s: State, a: Action)
    requires RequestInv(s)
    ensures RequestInv(Apply(s, a))
  {
    if IsLogin(a) {
      LoginKeepsRequests(s, a);
    } else if IsApproval(a) {
      ApprovalKeepsRequests(s, a);
    } else if IsRedeem(a) {
      RedeemFrame(s, a);
    } else if IsSession(a) {
      SessionFrame(s, a);
    } else {
      RefreshFrame(s, a);
    }
  }

  // ----- Codes -----

  ghost predicate CodeInv(s: State) {
    && NoRepeats(s.codes.redeemed)
    && NoRepeats(s.codes.answered)
    && (forall id :: id in s.store.authCodes ==>
                       id in s.used && id !in s.codes.redeemed && s.store.authCodes[id].id == id)
    && (forall id :: id in s.codes.redeemed ==> id in s.used)
    && (forall id :: id in s.codes.answered ==> id in s.codes.redeemed)
    && (forall t :: t in s.threads && Redeeming(s.threads[t]) ==>
                      s.threads[t].code.id in s.codes.redeemed && s.threads[t].code.id !in s.codes.answered)
    && (forall t, u :: t in s.threads && u in s.threads && t != u ==>
                         Redeeming(s.threads[t]) && Redeeming(s.threads[u]) ==>
                         s.threads[t].code.id != s.threads[u].code.id)
  }

  /** No code changes hands and no exchange moves. */
  ghost predicate KeepsCodes(s: State, r: State) {
    && r.store.authCodes == s.store.authCodes && r.codes == s.codes && s.used <= r.used
    && (forall t :: t in r.threads && Redeeming(r.threads[t]) ==> t in s.threads && r.threads[t] == s.threads[t])
  }

  lemma LoginKeepsCodes(s: State, a: Action)
    requires CodeInv(s) && IsLogin(a)
    ensures CodeInv(Apply(s, a))
  {
  }

  lemma ApprovalCodeKeepsCodes(s: State, t: nat, newID: ID)
    requires CodeInv(s)
    ensures CodeInv(DoApprovalCode(s, t, newID))
  {
  }

  lemma ApprovalCodeFrame(s: State, a: Action)
    requires IsApproval(a) && !a.ApprovalCode?
    ensures KeepsCodes(s, Apply(s, a))
  {
  }

  lemma DeleteKeepsCodes(s: State, t: nat)
    requires CodeInv(s)
    ensures CodeInv(DoExchangeDelete(s, t))
  {
  }

  lemma RedeemKeepsCodes(s: State, a: Action)
    requires CodeInv(s) && IsRedeem(a) && !a.ExchangeDelete?
    ensures CodeInv(Apply(s, a))
  {
  }

  lemma AnswerKeepsCodes(s: State, a: Action)
    requires CodeInv(s) && (a.ExchangeOpenSession? || a.ExchangeWriteRef?)
    ensures CodeInv(Apply(s, a))
  {
  }

  lemma SessionKeepsCodes(s: State, a: Action)
    requires CodeInv(s) && IsSession(a) && !a.ExchangeOpenSession? && !a.ExchangeWriteRef?
    ensures CodeInv(Apply(s, a))
  {
  }

  lemma RefreshCodeFrame(s: State, a: Action)
    requires IsRefresh(a)
    ensures KeepsCodes(s, Apply(s, a))
  {
  }

  lemma RevokeCodeFrame(s: State, a: Action)
    requires IsRevoke(a)
    ensures KeepsCodes(s, Apply(s, a))
  {
  }

  lemma StepKeepsCodes(s: State, a: Action)
    requires CodeInv(s)
    ensures CodeInv(Apply(s, a))
  {
    if IsLogin(a) {
      LoginKeepsCodes(s, a);
    } else if a.ApprovalCode? {
      ApprovalCodeKeepsCodes(s, a.t, a.newID);
    } else if IsApproval(a) {
      ApprovalCodeFrame(s, a);
    } else if a.ExchangeDelete? {
      DeleteKeepsCodes(s, a.t);
    } else if IsRedeem(a) {
      RedeemKeepsCodes(s, a);
    } else if a.ExchangeOpenSession? || a.ExchangeWriteRef? {
      AnswerKeepsCodes(s, a);
    } else if IsSession(a) {
      SessionKeepsCodes(s, a);
    } else if IsRefresh(a) {
      RefreshCodeFrame(s, a);
    } else {
      RevokeCodeFrame(s, a);
    }
  }
}
