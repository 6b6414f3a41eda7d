/** The cancellation tables of the server and the critical sections under cancelMu. */
module Cancels {
  import opened Text

  /** cancelFlags (only `true` is ever stored) and activeCancels; F stands for the cancel functions. */
  datatype Cancels<F> = Cancels(flags: set<string>, active: map<string, F>)

  /** cancelSession: raise the flag and look up the cancel function to call after unlocking. */
  function RaiseFlag<F>(t: Cancels<F>, sid: string): (Cancels<F>, Option<F>) {
    (t.(flags := t.flags + {sid}), if sid in t.active then Some(t.active[sid]) else None)
  }

  function SetActive<F>(t: Cancels<F>, sid: string, cancel: F): Cancels<F> {
    t.(active := t.active[sid := cancel])
  }

  function ClearActive<F>(t: Cancels<F>, sid: string): Cancels<F> {
    t.(active := t.active - {sid})
  }

  function ClearFlag<F>(t: Cancels<F>, sid: string): Cancels<F> {
    t.(flags := t.flags - {sid})
  }

  function ConsumeFlag<F>(t: Cancels<F>, sid: string): (Cancels<F>, bool) {
    (ClearFlag(t, sid), sid in t.flags)
  }
}
