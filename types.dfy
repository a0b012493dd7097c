/** The entities of the application shell (types.ts) and the shape of the
    answers the hosted authentication backend gives to the shell. */
module Types {

  /** The single active top-level screen. */
  datatype ViewState = LOADING | LOGIN | DASHBOARD | NOTES | ACCOUNTS | STORAGE

  /** The signed-in user as the shell keeps it; `id` is the backend's `$id`. */
  datatype UserProfile = UserProfile(id: string, name: string, email: string)

  /** The `null`-able slots of the shell. */
  datatype Option<T> = None | Some(value: T)

  /** The part of the backend's session object (`account.get()`) that the shell reads. */
  datatype Session = Session(id: string, name: string, email: string)

  /** What a backend call answered: a value, or a thrown error carrying its
      `message` (an absent message is the empty string). */
  datatype Outcome<T> = Ok(value: T) | Err(message: string)

  /** The backend requests the shell issues, in the order it issues them. */
  datatype Call =
    | GetAccount                                                        // account.get()
    | CreateAccount(userId: string, email: string, password: string, name: string)  // account.create(...)
    | CreateSession(email: string, password: string)                    // account.createEmailPasswordSession(...)
    | DeleteSession(sessionId: string)                                  // account.deleteSession(...)

  /** The screens whose presence puts the sidebar and the main area on screen. */
  predicate IsShellView(v: ViewState) {
    v == DASHBOARD || v == NOTES || v == ACCOUNTS || v == STORAGE
  }
}
