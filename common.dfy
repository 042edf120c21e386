/**
 * Types shared by the frontend and the backend models: an optional value,
 * the outcome of a call that may fail, and the user record that the
 * backend's UserSerializer emits and the frontend keeps in its session.
 */
module Common {

  datatype Option<+T> = None | Some(value: T)

  /** The settled outcome of an awaited call: its value, or what it failed with. */
  datatype Outcome<+T, +E> = Ok(value: T) | Err(error: E)

  /** The serialised user (fields id, email, full_name, phone, role, avatar, created_at). */
  datatype UserData = UserData(
    id: nat,
    email: string,
    fullName: string,
    phone: Option<string>,
    role: string,
    avatar: Option<string>,
    createdAt: string)
}
