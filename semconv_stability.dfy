/**
 * Which messaging semantic conventions are emitted: the old ones, the stable
 * ones, or both. The choice is made once, from the value of the
 * `otel.semconv-stability.opt-in` setting, and is fixed afterwards.
 */
module Semconv {
  import opened Wrappers
  import opened Strings

  datatype StabilityMode = StabilityMode(emitOld: bool, emitStable: bool)

  const MESSAGING: string := "messaging"
  const MESSAGING_DUP: string := "messaging/dup"

  /** The opt-in tokens: the setting split on ',' by Java's split, as a set, untrimmed. */
  function Tokens(value: string): (tokens: set<string>)
    ensures ',' !in value ==> tokens == {value}
    ensures forall t :: t in tokens ==> ',' !in t
    ensures forall t :: t != "" ==> (t in tokens <==> t in Fields(value, ','))
  {
    forall t | t != "" ensures t in JavaSplit(value, ',') <==> t in Fields(value, ',') {
      JavaSplitKeepsNonEmptyFields(value, ',', t);
    }
    set t | t in JavaSplit(value, ',')
  }

  /**
   * The documented outcome, as a table: no setting or no recognised token
   * keeps the old conventions only, `messaging` alone switches to the stable
   * ones only, and `messaging/dup` (with or without `messaging`) emits both.
   */
  function Resolve(optIn: Option<string>): (m: StabilityMode)
    ensures m.emitOld || m.emitStable
    ensures optIn.None? ==> m == StabilityMode(true, false)
  {
    match optIn
    case None => StabilityMode(true, false)
    case Some(value) =>
      if MESSAGING_DUP in Tokens(value) then StabilityMode(true, true)
      else if MESSAGING in Tokens(value) then StabilityMode(false, true)
      else StabilityMode(true, false)
  }

  /**
   * The static initializer as written: start from (old, not stable), switch
   * to stable-only on `messaging`, then force both on `messaging/dup`.
   */
  method InitializeFlags(optIn: Option<string>) returns (oldMessaging: bool, stableMessaging: bool)
    ensures StabilityMode(oldMessaging, stableMessaging) == Resolve(optIn)
  {
    oldMessaging := true;
    stableMessaging := false;
    if optIn.Some? {
      var values := Tokens(optIn.value);
      if MESSAGING in values {
        oldMessaging := false;
        stableMessaging := true;
      }
      if MESSAGING_DUP in values {
        oldMessaging := true;
        stableMessaging := true;
      }
    }
  }

  /**
   * The process-wide flags. The constructor plays the part of the static
   * initializer; the flags are constants, so they never change afterwards.
   */
  class SemconvStability {
    ghost const optIn: Option<string>
    const emitOldMessagingSemconv: bool
    const emitStableMessagingSemconv: bool

    constructor (optIn: Option<string>)
      ensures this.optIn == optIn
      ensures StabilityMode(emitOldMessagingSemconv, emitStableMessagingSemconv) == Resolve(optIn)
    {
      this.optIn := optIn;
      var oldMessaging, stableMessaging := InitializeFlags(optIn);
      emitOldMessagingSemconv := oldMessaging;
      emitStableMessagingSemconv := stableMessaging;
    }

    function EmitOldMessagingSemconv(): (r: bool)
      requires StabilityMode(emitOldMessagingSemconv, emitStableMessagingSemconv) == Resolve(optIn)
      ensures r == Resolve(optIn).emitOld
      ensures r || EmitStableMessagingSemconv()
    {
      emitOldMessagingSemconv
    }

    function EmitStableMessagingSemconv(): (r: bool)
      requires StabilityMode(emitOldMessagingSemconv, emitStableMessagingSemconv) == Resolve(optIn)
      ensures r == Resolve(optIn).emitStable
    {
      emitStableMessagingSemconv
    }
  }

  // ---------------------------------------------------------------------------
  // The outcome in terms of the raw comma-separated fields of the setting

  /** With no setting, only the old conventions are emitted. */
  lemma NoSettingKeepsOld()
    ensures Resolve(None) == StabilityMode(true, false)
  {
  }

  /** `messaging` without `messaging/dup` selects the stable conventions only. */
  lemma MessagingSelectsStableOnly(value: string)
    requires MESSAGING in Fields(value, ',') && MESSAGING_DUP !in Fields(value, ',')
    ensures Resolve(Some(value)) == StabilityMode(false, true)
  {
    JavaSplitKeepsNonEmptyFields(value, ',', MESSAGING);
    JavaSplitKeepsNonEmptyFields(value, ',', MESSAGING_DUP);
  }

  /** `messaging/dup` selects both, whether or not `messaging` is also given. */
  lemma DupSelectsBoth(value: string)
    requires MESSAGING_DUP in Fields(value, ',')
    ensures Resolve(Some(value)) == StabilityMode(true, true)
  {
    JavaSplitKeepsNonEmptyFields(value, ',', MESSAGING_DUP);
  }

  /** A setting with neither token keeps the default; other tokens are ignored. */
  lemma UnrecognisedTokensKeepDefault(value: string)
    requires MESSAGING !in Fields(value, ',') && MESSAGING_DUP !in Fields(value, ',')
    ensures Resolve(Some(value)) == StabilityMode(true, false)
  {
    JavaSplitKeepsNonEmptyFields(value, ',', MESSAGING);
    JavaSplitKeepsNonEmptyFields(value, ',', MESSAGING_DUP);
  }

  /** Tokens are not trimmed: a blank before `messaging` stops it from matching. */
  lemma LeadingBlankDoesNotMatch()
    ensures Resolve(Some(" messaging")) == StabilityMode(true, false)
  {
    assert ',' !in " messaging";
    assert Tokens(" messaging") == {" messaging"};
  }

  /**
   * Nor does a blank after the comma: in "messaging, messaging/dup" the second
   * token is " messaging/dup", which is unknown, so only `messaging` counts.
   */
  lemma BlankAfterCommaDoesNotMatch(value: string, rest: string)
    requires rest == " " + MESSAGING_DUP && value == MESSAGING + [','] + rest
    ensures Resolve(Some(value)) == StabilityMode(false, true)
  {
    assert ',' !in MESSAGING && ',' !in rest;
    FieldsAfterFirst(MESSAGING, ',', rest);
    FieldsWithoutSeparator(rest, ',');
    assert Fields(value, ',') == [MESSAGING, rest];
    assert rest != MESSAGING_DUP by { assert |rest| != |MESSAGING_DUP|; }
    MessagingSelectsStableOnly(value);
  }
}
