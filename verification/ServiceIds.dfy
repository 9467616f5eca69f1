/** Service ids and the postfix under which an upgrade initiator keeps its state. */
module ServiceIds {
  type EndpointId = string
  type ServiceId = string

  const POSTFIX: ServiceId := "_UPGRADE"
  const UNKNOWN_SERVICE_ID: ServiceId := "UNKNOWN_SERVICE"

  predicate EndsWith(s: string, suffix: string) {
    |suffix| <= |s| && s[|s| - |suffix|..] == suffix
  }

  predicate IsInitiator(s: ServiceId) {
    s != "" && EndsWith(s, POSTFIX)
  }

  function Wrap(s: ServiceId): (w: ServiceId)
    ensures w == "" || IsInitiator(w)
    ensures w == "" <==> s == ""
  {
    if s == "" || IsInitiator(s) then s
    else
      assert (s + POSTFIX)[|s + POSTFIX| - |POSTFIX|..] == POSTFIX;
      s + POSTFIX
  }

  function Unwrap(s: ServiceId): ServiceId {
    if s == "" || !IsInitiator(s) then s else s[..|s| - |POSTFIX|]
  }

  /** Initialize and revert compute the same key even when the id at hand is already wrapped. */
  lemma WrapIdempotent(s: ServiceId)
    ensures Wrap(Wrap(s)) == Wrap(s)
  {
  }

  /** Unwrap undoes Wrap exactly on the ids that did not carry the postfix to begin with. */
  lemma UnwrapWrap(s: ServiceId)
    ensures Unwrap(Wrap(s)) == s <==> !IsInitiator(s)
  {
    if s != "" && !IsInitiator(s) {
      assert (s + POSTFIX)[..|s|] == s;
    } else if IsInitiator(s) {
      assert |Unwrap(s)| < |s|;
    }
  }

  /** Wrap undoes Unwrap exactly on wrapped ids whose raw id is a proper one, and on the empty id. */
  lemma WrapUnwrap(s: ServiceId)
    ensures Wrap(Unwrap(s)) == s
       <==> s == "" || (IsInitiator(s) && Unwrap(s) != "" && !IsInitiator(Unwrap(s)))
  {
    if IsInitiator(s) {
      assert s == Unwrap(s) + POSTFIX;
      assert |Unwrap(s)| < |s|;
    } else if s != "" {
      assert |Wrap(s)| > |s|;
    }
  }

  /** Two services share a key only if one of them is the wrapped name of the other. */
  lemma WrapCollision(s: ServiceId, t: ServiceId)
    ensures Wrap(s) == Wrap(t)
       <==> || s == t
            || (s != "" && t == s + POSTFIX && !IsInitiator(s))
            || (t != "" && s == t + POSTFIX && !IsInitiator(t))
  {
    if s != "" && t != "" && !IsInitiator(s) && !IsInitiator(t) && Wrap(s) == Wrap(t) {
      assert |s| == |t|;
      assert (s + POSTFIX)[..|s|] == s && (t + POSTFIX)[..|t|] == t;
    }
    if s != "" {
      assert IsInitiator(s + POSTFIX) by {
        assert (s + POSTFIX)[|s + POSTFIX| - |POSTFIX|..] == POSTFIX;
      }
    }
    if t != "" {
      assert IsInitiator(t + POSTFIX) by {
        assert (t + POSTFIX)[|t + POSTFIX| - |POSTFIX|..] == POSTFIX;
      }
    }
  }

  /** The ids of an initiator are those that end in `_UPGRADE`; wrapping appends that to every other proper id. */
  lemma WrapAppends(s: ServiceId, raw: ServiceId)
    ensures IsInitiator(raw + "_UPGRADE")
    ensures IsInitiator(s) ==> s == s[..|s| - 8] + "_UPGRADE"
    ensures Wrap(s) == if s == "" || IsInitiator(s) then s else s + "_UPGRADE"
  {
    assert (raw + "_UPGRADE")[|raw + "_UPGRADE"| - 8..] == "_UPGRADE";
    if IsInitiator(s) {
      assert s == s[..|s| - 8] + s[|s| - 8..];
    }
  }
}
