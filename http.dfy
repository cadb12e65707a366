/**
 * Requests as values. Every `fetch`/`axios` call of the components is modelled as
 * appending one `Request` to a log; JSON bodies are maps from keys to values.
 */
module Http {
  import opened Wrappers

  datatype Method = GET | POST | PUT | DELETE

  /** The endpoints of the record service the components call. */
  datatype Endpoint =
    | Patients | PatientAdd | PatientUpdateCondition | PatientUpdateAllergies
    | PatientUpdateInfo | PatientDelete(patientId: string)
    | Staffs | StaffAdd | StaffUpdateInfo | StaffDelete(staffId: string)
    | UserAdd | UserUpdate | AuthLogin

  /** The URL each endpoint is called at. */
  function Url(e: Endpoint): string {
    match e
    case Patients => "http://127.0.0.1:5000/patients"
    case PatientAdd => "http://127.0.0.1:5000/patient/add"
    case PatientUpdateCondition => "http://127.0.0.1:5000/patient/update_condition"
    case PatientUpdateAllergies => "http://127.0.0.1:5000/patient/update_allergies"
    case PatientUpdateInfo => "http://127.0.0.1:5000/patient/update_info"
    case PatientDelete(id) => "http://127.0.0.1:5000/patient/delete?patient_id=" + id
    case Staffs => "http://127.0.0.1:5000/staffs"
    case StaffAdd => "http://127.0.0.1:5000/staff/add"
    case StaffUpdateInfo => "http://127.0.0.1:5000/staff/update_info"
    case StaffDelete(id) => "http://127.0.0.1:5000/staff/delete?staff_id=" + id
    case UserAdd => "http://127.0.0.1:5000/user/add"
    case UserUpdate => "http://127.0.0.1:5000/user/update"
    case AuthLogin => "http://localhost:5000/auth/login"
  }

  /** The JSON values that occur in the bodies and in the stored user object. */
  datatype Value = Str(s: string) | StrList(items: seq<string>) | Null

  type Object = map<string, Value>

  datatype Request = Request(verb: Method, endpoint: Endpoint, body: Option<Object>)

  /** The body keys of a request, empty when it has no body. */
  function BodyKeys(r: Request): set<string> {
    if r.body.Some? then r.body.value.Keys else {}
  }

  /** A browser `localStorage` entry: plain text, or the JSON text of an object. */
  datatype Stored = Text(text: string) | Json(obj: Object)

  type Storage = map<string, Stored>
}
