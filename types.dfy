/** Value types shared by the service, the guard and the two components. */
module Types {

  /** The route of the login page, where a visitor without a session is sent. */
  const LoginPath: string := "/login"

  datatype Option<+T> = None | Some(value: T)

  /** Outcome of a remote call: either its data or the error it threw. */
  datatype Result<+T, +E> = Ok(value: T) | Err(error: E)

  /** An authenticated user as handed out by the auth provider. */
  datatype User = User(id: string, email: string)

  /**
   * The value carried by the current-user subject: `undefined` before the
   * first session check resolves, `null` when nobody is signed in, and a
   * user object otherwise.
   */
  datatype Identity = Unknown | Absent | Present(user: User)

  /** The error object an auth call rejects with; an empty message stands for a missing one. */
  datatype AuthError = AuthError(message: string)

  /** What a successful password sign-in resolves to. */
  datatype AuthData = AuthData(user: User, accessToken: string)

  /** Outcome of a call that resolves with no data. */
  datatype Outcome = Pass | Fail(error: AuthError)

  /** The error a failed table query rejects with. */
  datatype FetchError = FetchError(message: string)

  datatype Room = Room(id: string, name: string, createdAt: string)

  datatype Sensor = Sensor(id: string, name: string, roomId: string, createdAt: string)

  /** One row of the air-quality table. */
  datatype Reading = Reading(
    id: string,
    sensorId: string,
    timestampReceived: string,
    temperature: real,
    humidity: real,
    pressure: real,
    voc: real,
    co2: real,
    iaq: real,
    accuracy: real)
}
