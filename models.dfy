/** The stored records, one datatype per model class. Nullable strings stay
    nullable (`Option<string>`): a guardian's owner id can be null, and the
    ownership checks compare it with the caller's id. */
module Models {
  import opened Common

  /** DateTime, as a count of ticks. */
  type DateTime = int

  newtype Byte = b: int | 0 <= b < 256

  /** How many guardians one account may own. */
  const MaxNumberOfParentGuardians: nat := 1

  datatype ParentGuardian = ParentGuardian(
    id: Guid,
    userId: Option<UserId>,
    firstName: Option<string>,
    lastName: Option<string>)

  datatype Patient = Patient(
    id: Guid,
    firstName: Option<string>,
    lastName: Option<string>,
    avatar: int,
    parentGuardianId: Guid,
    trajectId: Guid,
    doctorId: Guid)

  datatype Doctor = Doctor(id: Guid, name: Option<string>, specialization: Option<string>)

  datatype Traject = Traject(id: Guid, name: Option<string>)

  datatype CareMoment = CareMoment(
    id: Guid,
    name: Option<string>,
    url: Option<string>,
    picture: Option<seq<Byte>>,
    timeDurationInMin: int)

  /** The join record binding a care moment into a traject; its primary key is
      the pair (trajectId, careMomentId). */
  datatype TrajectCareMoment = TrajectCareMoment(
    trajectId: Guid,
    careMomentId: Guid,
    name: Option<string>,
    step: int)

  datatype Note = Note(
    id: Guid,
    date: DateTime,
    text: Option<string>,
    userMood: int,
    parentGuardianId: Guid,
    patientId: Guid)
}
