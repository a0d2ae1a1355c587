/**
 * The parts of `net/http` and of the service's constants that the handlers use:
 * status codes, the route prefixes, and a response writer. A Go response writer
 * keeps the status of its first `WriteHeader` (or of the first body write,
 * which implies 200) and ignores later ones, while every write appends to the
 * body; `http.Error` sets the status and writes the message and a newline.
 */
module Http {

  const StatusOK: nat := 200
  const StatusNoContent: nat := 204
  const StatusBadRequest: nat := 400
  const StatusNotFound: nat := 404
  const StatusMethodNotAllowed: nat := 405
  const StatusInternalServerError: nat := 500

  const DefaultPath: string := "/dashboard/v1/"
  const RegistrationPath: string := DefaultPath + "registrations/"
  const DashboardPath: string := DefaultPath + "dashboards/"
  const NotificationPath: string := DefaultPath + "notifications/"

  const CountriesApi: string := "http://129.241.150.113:8080/v3.1"
  const CountriesApiName: string := CountriesApi + "/name/"
  const CountriesApiIsocode: string := CountriesApi + "/alpha/"
  const CurrencyApi: string := "http://129.241.150.113:9090/currency/"

  /**
   * What a handler has written so far. `status` is the status the client
   * receives: the one fixed by the first write, or 200 when nothing was written.
   */
  datatype Writer = Writer(headerSent: bool, status: nat, body: string)

  /** The writer a handler starts from. */
  const Fresh: Writer := Writer(false, StatusOK, "")

  /** `w.WriteHeader(code)`: only the first status sticks. */
  function WriteHeader(w: Writer, code: nat): (v: Writer)
    ensures v.headerSent && v.body == w.body
    ensures w.headerSent ==> v.status == w.status
    ensures !w.headerSent ==> v.status == code
  {
    if w.headerSent then w else Writer(true, code, w.body)
  }

  /** `w.Write(data)`: appends to the body; a first write sends status 200. */
  function Write(w: Writer, data: string): (v: Writer)
    ensures v.headerSent && v.body == w.body + data
    ensures w.headerSent ==> v.status == w.status
    ensures !w.headerSent ==> v.status == StatusOK
  {
    var h := WriteHeader(w, StatusOK);
    h.(body := h.body + data)
  }

  /** `http.Error(w, message, code)`. */
  function Error(w: Writer, message: string, code: nat): (v: Writer)
    ensures v.headerSent
    ensures v.body == w.body + message + "\n"
    ensures w.headerSent ==> v.status == w.status
    ensures !w.headerSent ==> v.status == code
  {
    Write(WriteHeader(w, code), message + "\n")
  }

  /** On an untouched writer, `http.Error` gives exactly its status and message. */
  lemma ErrorOnFresh(message: string, code: nat)
    ensures Error(Fresh, message, code) == Writer(true, code, message + "\n")
  {
  }

  /** Once a status is sent, further errors only add to the body. */
  lemma ErrorKeepsStatus(w: Writer, m1: string, c1: nat, m2: string, c2: nat)
    ensures Error(Error(w, m1, c1), m2, c2).status == Error(w, m1, c1).status
    ensures Error(Error(w, m1, c1), m2, c2).body == w.body + m1 + "\n" + m2 + "\n"
  {
  }

  /** Why `fetchURLdata` failed: the GET itself, or decoding its JSON body. */
  datatype FetchError = GetFailed | DecodeFailed

  /** What `fetchURLdata` obtained for a URL: the decoded value, or an error. */
  datatype Fetch<T> = Failed(error: FetchError) | Fetched(value: T)

  /** What `fetchURLdata` writes when it fails: a 500 naming the URL. */
  function FetchFailed(w: Writer, url: string, e: FetchError): Writer {
    Error(w, (if e.GetFailed? then "Failed to fetch url: " else "Failed to decode url: ") + url, StatusInternalServerError)
  }

  /** A handler either returns, leaving what it wrote, or stops in a Go runtime panic. */
  datatype Handled = Replied(w: Writer) | Panicked
}
