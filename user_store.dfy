/** The client's shared identity state (src/lib/stores/userStore.ts): a
    writable store holding a four-field record, and `signOut`, which updates it
    before and after the provider call. */
module UserStore {

  import opened Types

  datatype UserState = UserState(user: Option<User>, session: Option<Session>, loading: bool, error: Option<string>)

  /** The store's value before the layout has processed the server data. */
  const INITIAL_STATE := UserState(None, None, true, None)

  /** The record the second `update` of `signOut` leaves, from the one it found and the
      provider's `signOut()` error (None when the call succeeded). */
  function AfterSignOut(s: UserState, providerError: Option<string>): (t: UserState)
    ensures !t.loading
    ensures providerError.Some? ==> t.error == providerError && t.user == s.user && t.session == s.session
    ensures providerError.None? ==> t.user.None? && t.session.None? && t.error == s.error
  {
    match providerError
    case Some(message) => s.(error := Some(message), loading := false)
    case None => s.(loading := false, user := None, session := None)
  }

  /** Whatever the store held, a sign-out the provider refuses keeps its user and session:
      only the message and the end of loading are recorded. */
  lemma SignOutErrorKeepsIdentity(s: UserState, message: string)
    ensures AfterSignOut(s.(loading := true), Some(message)) == s.(error := Some(message), loading := false)
  {
  }

  /** A successful sign-out is idempotent, and a failed attempt before it changes nothing
      about where the successful one ends but the message it leaves. */
  lemma SignOutSettles(s: UserState, message: string)
    ensures var out := AfterSignOut(s.(loading := true), None);
      AfterSignOut(out.(loading := true), None) == out &&
      AfterSignOut(AfterSignOut(s.(loading := true), Some(message)).(loading := true), None) ==
        out.(error := Some(message))
  {
  }

  /** The module-level `userStore`. */
  class UserStoreCell {
    var state: UserState

    constructor ()
      ensures state == INITIAL_STATE
    {
      state := INITIAL_STATE;
    }

    /** The first `update`: mark the sign-out in flight, nothing else. */
    method BeginSignOut()
      modifies this
      ensures state == old(state).(loading := true)
    {
      state := state.(loading := true);
    }

    /** The second `update`, once the provider has answered. */
    method FinishSignOut(providerError: Option<string>)
      modifies this
      ensures state == AfterSignOut(old(state), providerError)
    {
      if providerError.Some? {
        state := state.(error := Some(providerError.value), loading := false);
      } else {
        state := state.(loading := false, user := None, session := None);
      }
    }

    /** `signOut`: the two updates around the awaited provider call. */
    method SignOut(providerError: Option<string>)
      modifies this
      ensures state == AfterSignOut(old(state).(loading := true), providerError)
      ensures !state.loading
    {
      BeginSignOut();
      FinishSignOut(providerError);
    }
  }
}
