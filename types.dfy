/**
 * The records the client exchanges with its backend (User, Client, Project,
 * Document, DashboardStats, AuthResponse and the credential records), and the
 * shapes of success and failure every request resolves to.
 *
 * Timestamps are opaque strings; the optional TypeScript properties (`?:`)
 * are `Option` fields.
 */
module Types {

  datatype Option<T> = None | Some(value: T)

  /** A stored token is usable when it is present and not the empty string
      (JavaScript truthiness of a `string | null`). */
  predicate Present(t: Option<string>) {
    t.Some? && t.value != ""
  }

  /** `error.response`: an HTTP status (absent on errors the mock backend
      builds) and the backend's `data.message`. */
  datatype ErrorResponse = ErrorResponse(status: Option<int>, message: Option<string>)

  /** A rejected request: the `Error`'s own message and its optional `response`. */
  datatype ApiError = ApiError(message: string, response: Option<ErrorResponse>)

  /** `error.response?.status === 401` */
  predicate Is401(e: ApiError) {
    e.response.Some? && e.response.value.status == Some(401)
  }

  /** A promise that resolves to `value` or rejects with `error`. */
  datatype Result<T> = Success(value: T) | Failure(error: ApiError)

  /** The two clock readings the mock backend takes: `Date.now()` and
      `new Date().toISOString()`. */
  datatype Clock = Clock(now: nat, iso: string)

  datatype User = User(
    id: int,
    name: string,
    email: string,
    emailVerifiedAt: Option<string>,
    createdAt: string,
    updatedAt: string)

  datatype Client = Client(
    id: int,
    name: string,
    email: Option<string>,
    phone: Option<string>,
    company: Option<string>,
    createdAt: string,
    updatedAt: string)

  /** `status` is one of "active", "completed", "on_hold", "cancelled" in the
      backend's contract; the page treats it as an arbitrary string. */
  datatype Project = Project(
    id: int,
    name: string,
    description: Option<string>,
    clientId: int,
    client: Client,
    status: string,
    createdAt: string,
    updatedAt: string)

  datatype Document = Document(
    id: int,
    name: string,
    filePath: string,
    fileSize: int,
    mimeType: string,
    projectId: Option<int>,
    clientId: Option<int>,
    project: Option<Project>,
    client: Option<Client>,
    createdAt: string,
    updatedAt: string)

  datatype DashboardStats = DashboardStats(
    totalClients: int,
    totalProjects: int,
    totalDocuments: int,
    recentDocuments: seq<Document>)

  datatype AuthResponse = AuthResponse(user: User, token: string)

  datatype LoginCredentials = LoginCredentials(email: string, password: string)

  datatype RegisterCredentials = RegisterCredentials(
    name: string,
    email: string,
    password: string,
    passwordConfirmation: string)
}
