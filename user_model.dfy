/** `User` and `UserManager`: the profile record stored under `users/<uid>`, the
    decision whether a stored profile is complete, and the manager that keeps the
    last successfully fetched user. Documents are maps from field names to typed
    values; timestamps are integers. */
module UserModel {
  import opened Basics

  /** A stored field value, by type. */
  datatype FieldValue =
    | StringField(text: string)
    | BoolField(flag: bool)
    | TimestampField(time: int)
    | OtherField

  type Document = map<string, FieldValue>

  /** A document read: the call failed, or it returned a snapshot whose data is
      absent when the document does not exist. */
  datatype DocumentResponse = FetchError(message: string) | Snapshot(data: Option<Document>)

  datatype User = User(
    id: Option<string>,
    username: string,
    email: string,
    birthDate: int,
    createdAt: int,
    profileComplete: bool)

  /** The stored form of a user's fields; the id is the document's name, not a field. */
  function EncodeUser(u: User): Document {
    map["username" := StringField(u.username), "email" := StringField(u.email),
        "birthDate" := TimestampField(u.birthDate), "createdAt" := TimestampField(u.createdAt),
        "profileComplete" := BoolField(u.profileComplete)]
  }

  /** `snapshot.data(as: User.self)` for document `docId`: every field present
      with its type, extra fields ignored, the id taken from the document name. */
  function DecodeUser(docId: string, data: Document): (r: Option<User>)
    ensures r.Some? ==> r.value.id == Some(docId)
    ensures r.Some? ==> "profileComplete" in data && data["profileComplete"] == BoolField(r.value.profileComplete)
    ensures r.Some? ==> "username" in data && data["username"] == StringField(r.value.username)
  {
    if && "username" in data && data["username"].StringField?
       && "email" in data && data["email"].StringField?
       && "birthDate" in data && data["birthDate"].TimestampField?
       && "createdAt" in data && data["createdAt"].TimestampField?
       && "profileComplete" in data && data["profileComplete"].BoolField?
    then Some(User(Some(docId), data["username"].text, data["email"].text, data["birthDate"].time,
                   data["createdAt"].time, data["profileComplete"].flag))
    else None
  }

  /** Decoding what was encoded gives the user back, with the document's id; an
      extra field in the document changes nothing. */
  lemma DecodeEncode(docId: string, u: User, extra: Document)
    ensures DecodeUser(docId, EncodeUser(u)) == Some(u.(id := Some(docId)))
    ensures DecodeUser(docId, extra + EncodeUser(u)) == Some(u.(id := Some(docId)))
  {
  }

  /** `checkProfileComplete`'s completion value: false on a failed read, on a
      missing document and on a missing or non-boolean `profileComplete`;
      otherwise the stored flag. */
  function ProfileComplete(response: DocumentResponse): (complete: bool)
    ensures response.FetchError? ==> !complete
    ensures response.Snapshot? && response.data.None? ==> !complete
    ensures response.Snapshot? && response.data.Some? ==>
              var d := response.data.value;
              && (("profileComplete" !in d || !d["profileComplete"].BoolField?) ==> !complete)
              && (("profileComplete" in d && d["profileComplete"].BoolField?) ==> complete == d["profileComplete"].flag)
  {
    match response
    case FetchError(_) => false
    case Snapshot(data) =>
      if data.None? then false
      else if "profileComplete" in data.value && data.value["profileComplete"].BoolField?
      then data.value["profileComplete"].flag
      else false
  }

  /** A document that decodes as a user is complete exactly when that user says so. */
  lemma ProfileCompleteOfUser(docId: string, data: Document)
    requires DecodeUser(docId, data).Some?
    ensures ProfileComplete(Snapshot(Some(data))) == DecodeUser(docId, data).value.profileComplete
  {
  }

  class UserManager {
    var currentUser: Option<User>
    var isLoading: bool

    constructor ()
      ensures currentUser == None && !isLoading
    {
      currentUser := None;
      isLoading := false;
    }

    /** `fetchUser(userId:)`: raises `isLoading` and issues the read. */
    method FetchUser(userId: string)
      modifies this`isLoading
      ensures isLoading
    {
      isLoading := true;
    }

    /** The read's completion for `userId`: `isLoading` falls in every case; a
        failed read, a missing document or one that does not decode keeps the
        last-known user, and a decoded one replaces it. */
    method OnUserFetched(userId: string, response: DocumentResponse)
      modifies this`isLoading, this`currentUser
      ensures !isLoading
      ensures (response.FetchError? || response.data.None? || DecodeUser(userId, response.data.value).None?) ==>
                currentUser == old(currentUser)
      ensures (response.Snapshot? && response.data.Some? && DecodeUser(userId, response.data.value).Some?) ==>
                currentUser == DecodeUser(userId, response.data.value)
    {
      isLoading := false;
      if response.FetchError? {
        return;
      }
      if response.data.None? {
        return;
      }
      var decoded := DecodeUser(userId, response.data.value);
      if decoded.Some? {
        currentUser := decoded;
      }
    }
  }
}
