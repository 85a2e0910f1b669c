/**
 * `CapsLockManager`: the caps-lock state shared by the handler and the
 * converters. In session mode caps lock is a flag of the session that
 * upper-cases typed text; in system mode the operating system's caps lock
 * is pressed instead and the flag never changes.
 */
module CapsLock {
  import opened Text

  datatype CapsMode = Session | System

  /** The text typed in `mode` with the flag `enabled`. */
  function Transform(mode: CapsMode, enabled: bool, text: string): (r: string)
    ensures |r| == |text|
    ensures forall i :: 0 <= i < |text| ==>
      r[i] == if mode == Session && enabled then UpperChar(text[i]) else text[i]
  {
    if mode == Session && enabled then Upper(text) else text
  }

  class CapsLockManager {
    const mode: CapsMode
    var capsEnabled: bool

    /** A new manager starts with caps lock off. */
    constructor (mode: CapsMode)
      ensures this.mode == mode && !capsEnabled
    {
      this.mode := mode;
      capsEnabled := false;
    }

    /** `toggle`: flips the flag in session mode and leaves it alone in system mode. */
    method Toggle()
      modifies this
      ensures capsEnabled == (if mode == Session then !old(capsEnabled) else old(capsEnabled))
    {
      if mode == Session {
        capsEnabled := !capsEnabled;
      }
    }

    /** `reset`: caps lock off. */
    method Reset()
      modifies this
      ensures !capsEnabled
    {
      capsEnabled := false;
    }

    /** `should_use_system_capslock`: exactly in system mode. */
    predicate ShouldUseSystemCapslock()
    {
      mode == System
    }

    /** `transform_text`: upper-cased while session caps lock is on, unchanged otherwise. */
    function TransformText(text: string): (r: string)
      reads this
      ensures r == Transform(mode, capsEnabled, text)
    {
      Transform(mode, capsEnabled, text)
    }
  }

  /** Text without lower-case letters (digits, punctuation, capitals) is typed as it is. */
  lemma TransformKeepsNonLower(mode: CapsMode, enabled: bool, text: string)
    requires forall i :: 0 <= i < |text| ==> !('a' <= text[i] <= 'z')
    ensures Transform(mode, enabled, text) == text
  {
  }

  /** Upper-casing twice is upper-casing once. */
  lemma TransformIdempotent(enabled: bool, text: string)
    ensures Transform(Session, enabled, Transform(Session, enabled, text)) == Transform(Session, enabled, text)
  {
  }

  /** In system mode nothing is ever transformed. */
  lemma SystemModeIdentity(enabled: bool, text: string)
    ensures Transform(System, enabled, text) == text
  {
  }

  /** With session caps lock on, the typed text has no lower-case ASCII letter. */
  lemma SessionCapsUpper(text: string)
    ensures forall i :: 0 <= i < |text| ==> !('a' <= Transform(Session, true, text)[i] <= 'z')
  {
  }

  /** The session-mode transcript: off, toggle, on, toggle, off. */
  method SessionScenario() returns (before: string, during: string, after: string)
    ensures before == "Hello World" && during == "HELLO WORLD" && after == "Hello World"
  {
    var m := new CapsLockManager(Session);
    before := m.TransformText("Hello World");
    m.Toggle();
    during := m.TransformText("Hello World");
    assert during == "HELLO WORLD";
    m.Toggle();
    after := m.TransformText("Hello World");
  }
}
