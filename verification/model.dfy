/**
  The records the front-end exchanges with its backend. Optional TypeScript
  properties become `Option`; identifiers keep the source's types (strings
  for the pet-care entities, integers for patients and therapy sessions).
*/
module Model {
  import opened Wrappers

  /**
    The five roles of `User.role`. Any other role string (a hand-edited or
    stale stored user, say) compares unequal to all five, so every such
    string behaves alike: `Unrecognized`.
  */
  datatype Role = Owner | Sitter | Admin | Therapist | PatientRole | Unrecognized

  /** The authenticated identity; `id` is always a string once a login has been normalised. */
  datatype User = User(id: string, email: string, name: string, role: Role)

  datatype Pet = Pet(
    id: string,
    name: string,
    species: string,
    breed: Option<string>,
    age: Option<int>,
    ownerId: string,
    photoUrl: Option<string>)

  /**
    A pet-care visit. `status` is the server's open tag ('scheduled',
    'in-progress', 'completed', 'cancelled' or anything else); `paid` is
    read by the owners list and written by `markAsPaid`.
  */
  datatype CareSession = CareSession(
    id: string,
    petId: string,
    sitterId: string,
    startTime: string,
    endTime: string,
    status: string,
    paid: bool,
    notes: Option<string>)

  datatype SessionReport = SessionReport(
    id: string,
    careSessionId: string,
    petId: string,
    sitterId: string,
    reportDate: string,
    activities: seq<string>,
    notes: string,
    mood: Option<string>)

  /** `kind` is the source's `type` field ('home', 'vet', 'grooming', 'park', 'other'). */
  datatype Location = Location(
    id: string,
    name: string,
    address: string,
    latitude: real,
    longitude: real,
    petId: Option<string>,
    ownerId: string,
    kind: string,
    notes: Option<string>)

  datatype Photo = Photo(
    id: string,
    url: string,
    thumbnailUrl: Option<string>,
    petId: Option<string>,
    careSessionId: Option<string>,
    sessionReportId: Option<string>,
    uploadedBy: string,
    description: Option<string>,
    tags: seq<string>)

  /** A therapy patient; only the numeric id takes part in any decision. */
  datatype Patient = Patient(id: int, name: string)

  /**
    A therapy session (`Session` in the source): `price` is `precio`, an
    amount in whole pesos that may be missing, and `paid` is `pagado`.
  */
  datatype TherapySession = TherapySession(
    id: int,
    patientId: Option<int>,
    startTime: Option<string>,
    endTime: Option<string>,
    notes: Option<string>,
    concept: Option<string>,
    price: Option<int>,
    paid: bool)
}
