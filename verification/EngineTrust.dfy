/** Whom the engine serves: every trusted exchange goes back to a certificate or credential that was verified. */
module EngineTrust {
  import opened Sessions
  import opened Engine
  import opened EngineInvariant
  import opened EngineStep
  import opened EngineHistory
  import opened EngineTraces

  /** The request carries a credential that verified, of a kind the server takes. */
  predicate Verifies(r: Request, cfg: Config)
    requires r.identity.Some?
  {
    r.verified && r.message.header.cred.Some? && (r.identity.value.authType == BASIC ==> cfg.allowBasic)
  }

  predicate CarriesProof(r: Request, cfg: Config)
    requires r.identity.Some?
  {
    (r.chains && r.trusted) || Verifies(r, cfg)
  }

  /** Exchange `j` was answered in session `key`. */
  predicate AnsweredIn(t: seq<Moment>, j: nat, key: string) {
    j < |t| && t[j].event.Exchange? && t[j].stage.Answering? && t[j].stage.draft.session.key == key
      && t[j].event.request.identity.Some?
  }

  /** Exchange `i`, in session `key`, verified a credential that is not a certificate. */
  predicate VerifiedAt(t: seq<Moment>, i: nat, key: string, cfg: Config) {
    && AnsweredIn(t, i, key)
    && var r := t[i].event.request; Verifies(r, cfg) && r.identity.value.authType != CERTIFICATE
  }

  /** No exchange after `i` and before `n` opened session `key` anew. */
  predicate SameSince(t: seq<Moment>, i: nat, n: nat, key: string, cfg: Config) {
    forall k :: i < k < n && AnsweredIn(t, k, key) ==> ResumedBy(Before(t, k), t[k].event.request, cfg).Some?
  }

  ghost predicate LoggedIn(t: seq<Moment>, n: nat, key: string, cfg: Config) {
    exists i: nat :: i < n && VerifiedAt(t, i, key, cfg) && SameSince(t, i, n, key, cfg)
  }

  lemma {:induction false} LoggedInStill(t: seq<Moment>, n: nat, key: string, cfg: Config)
    requires LoggedIn(t, n, key, cfg) && n < |t|
    requires AnsweredIn(t, n, key) ==> ResumedBy(Before(t, n), t[n].event.request, cfg).Some?
    ensures LoggedIn(t, n + 1, key, cfg)
  {
    hide VerifiedAt, AnsweredIn, ResumedBy, Before;
    var i: nat :| i < n && VerifiedAt(t, i, key, cfg) && SameSince(t, i, n, key, cfg);
    assert SameSince(t, i, n + 1, key, cfg);
  }

  /** A login that is remembered is not a certificate's. */
  predicate Remembered(s: Session) {
    s.authenticated && s.authType != CERTIFICATE
  }

  /** Where the login of an admitted session comes from. */
  lemma {:induction false} AdmissionMeans(w: World, r: Request, cfg: Config)
    requires r.identity.Some? && Admission(w, r, cfg).Some?
    ensures var (s, outcome), resumed := Admission(w, r, cfg).value, ResumedBy(w, r, cfg);
            && (Remembered(s) <==> (resumed.Some? && Remembered(resumed.value))
                                   || (!(r.chains && r.trusted) && Verifies(r, cfg) && r.identity.value.authType != CERTIFICATE))
            && (outcome.Trusted? <==> (resumed.Some? && Remembered(resumed.value)) || CarriesProof(r, cfg))
  {
    hide ResumedBy, IsPackageOne, SessionKey, MsgID;
  }

  /** In every run, a login remembered in a stored session was verified by an earlier exchange of that session. */
  lemma {:induction false} LoginOnRecord(t: seq<Moment>, cfg: Config, n: nat, key: string)
    requires ConfigOk(cfg) && Run(t, cfg) && n <= |t|
    requires key in Before(t, n).sessions && Remembered(Before(t, n).sessions[key])
    ensures LoggedIn(t, n, key, cfg)
  {
    hide ConfigOk, Run, Inv, Happened, LoggedIn, ResumedBy, Remembered, Drained, Admission, LedgerStep, SessionKey, Verifies, AllSafe;
    if n > 0 {
      var w, m := Before(t, n - 1), t[n - 1];
      if m.event.Exchange? {
        ExchangeAt(t, cfg, n - 1);
        assert SessionFacts(w, m, key);
        if m.stage.Answering? && key == m.stage.draft.session.key {
          if key in w.sessions && Remembered(w.sessions[key]) { LoginOnRecord(t, cfg, n - 1, key); }
          FinishedLogin(m.stage.draft);
          LoginAnswered(t, cfg, n - 1, key);
        } else {
          UntouchedLogin(w.sessions[key], m.after.sessions[key]);
          LoginOnRecord(t, cfg, n - 1, key);
          LoggedInStill(t, n - 1, key, cfg);
        }
      } else {
        QuietAt(t, cfg, n - 1);
        LoginOnRecord(t, cfg, n - 1, key);
        LoggedInStill(t, n - 1, key, cfg);
      }
    }
  }

  lemma {:induction false} FinishedLogin(z: Draft)
    ensures Remembered(Finished(z)) == Remembered(z.session)
  {
  }

  lemma {:induction false} UntouchedLogin(s: Session, t: Session)
    requires Untouched(s, t)
    ensures Remembered(t) == Remembered(s)
  {
  }

  lemma {:induction false} LoginAnswered(t: seq<Moment>, cfg: Config, n: nat, key: string)
    requires ConfigOk(cfg) && Run(t, cfg) && AnsweredIn(t, n, key) && Remembered(t[n].stage.draft.session)
    requires key in Before(t, n).sessions && Remembered(Before(t, n).sessions[key]) ==> LoggedIn(t, n, key, cfg)
    ensures LoggedIn(t, n + 1, key, cfg)
  {
    hide ConfigOk, Run, Inv, Happened, ResumedBy, Admission, LedgerStep, SessionKey, AllSafe, SessionFacts, Before, Verifies;
    ExchangeAt(t, cfg, n);
    var w, r := Before(t, n), t[n].event.request;
    AdmissionMeans(w, r, cfg);
    if Verifies(r, cfg) && r.identity.value.authType != CERTIFICATE {
      assert VerifiedAt(t, n, key, cfg) && SameSince(t, n, n + 1, key, cfg);
    } else {
      ResumedNumbers(w, r, cfg);
      LoggedInStill(t, n, key, cfg);
    }
  }

  /**
   In every run, an exchange is trusted only if it carries a trusted
   certificate chain or a verified credential itself, or continues a session
   in which an earlier exchange verified a credential that is not a
   certificate. A certificate is never remembered.
   */
  lemma {:induction false} TrustEarned(t: seq<Moment>, cfg: Config, j: nat)
    requires ConfigOk(cfg) && Run(t, cfg) && j < |t| && t[j].event.Exchange? && t[j].stage.Answering?
    ensures var w, r := Before(t, j), t[j].event.request;
            && r.identity.Some? && Admission(w, r, cfg).Some?
            && (Admission(w, r, cfg).value.1.Trusted? ==>
                  CarriesProof(r, cfg) || (ResumedBy(w, r, cfg).Some? && LoggedIn(t, j, SessionKey(r.message), cfg)))
  {
    hide ConfigOk, Run, Inv, Happened, ResumedBy, Admission, LedgerStep, SessionKey, AllSafe, SessionFacts, Before, CarriesProof, LoggedIn;
    ExchangeAt(t, cfg, j);
    var w, r := Before(t, j), t[j].event.request;
    AdmissionMeans(w, r, cfg);
    if ResumedBy(w, r, cfg).Some? && Remembered(ResumedBy(w, r, cfg).value) {
      ResumedNumbers(w, r, cfg);
      LoginOnRecord(t, cfg, j, SessionKey(r.message));
    }
  }
}
