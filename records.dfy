/** A document of the `users` collection, the request bodies that feed it, and
    the three ways the handlers compute a document's fields. */
module Records {
  import opened Js
  import opened Auth

  /** The `alamat` (address) sub-document. */
  datatype Address = Address(provinsi: Value, kota: Value, kecamatan: Value, kelurahan: Value, detail: Value)

  /** One user document. A field stored as `Undefined` is one the document
      does not have. Server timestamps are plain integers. */
  datatype UserRecord = UserRecord(
    name: Value, email: Value, phone: Value,
    tempatLahir: Value, tanggalLahir: Value,
    alamat: Address,
    isVerified: bool,
    createdAt: int, lastLogin: int)

  /** The body of `POST /register`; `alamat` here is the free-text address line. */
  datatype RegisterBody = RegisterBody(
    uid: Value, name: Value, tempatLahir: Value, tanggalLahir: Value,
    provinsi: Value, kota: Value, kecamatan: Value, kelurahan: Value, alamat: Value,
    email: Value, phone: Value)

  /** The body of `POST /auth`. */
  datatype SyncBody = SyncBody(uid: Value, email: Value, name: Value, phone: Value)

  /** The name a profile created at login gets when neither the body nor the
      token carries one. */
  const DefaultName: string := "Nama Pengguna"

  const EmptyAddress: Address := Address(Null, Null, Null, Null, Null)

  /** A full document Firestore accepts in `set`: no field is `undefined`. */
  predicate Storable(r: UserRecord)
    ensures Storable(r) ==> MergeStorable(r)
  {
    && Js.Writable(r.name) && Js.Writable(r.email) && Js.Writable(r.phone)
    && Js.Writable(r.tempatLahir) && Js.Writable(r.tanggalLahir)
    && Js.Writable(r.alamat.provinsi) && Js.Writable(r.alamat.kota) && Js.Writable(r.alamat.kecamatan)
    && Js.Writable(r.alamat.kelurahan) && Js.Writable(r.alamat.detail)
  }

  /** The login merge is a partial `update` of name, email and phone (and the
      timestamp): Firestore accepts it when none of those is `undefined`. */
  predicate MergeStorable(r: UserRecord)
    ensures MergeStorable(r) ==> r.name != Undefined && r.email != Undefined && r.phone != Undefined
  {
    Js.Writable(r.name) && Js.Writable(r.email) && Js.Writable(r.phone)
  }

  /** The document `POST /register` writes: every profile field as supplied,
      with an empty or missing one stored as null, unverified, created and
      last seen now. */
  function RegisteredRecord(b: RegisterBody, now: int): (r: UserRecord)
    ensures Storable(r)
    ensures !r.isVerified && r.createdAt == now && r.lastLogin == now
    ensures SuppliedOrNull(b.name, r.name) && SuppliedOrNull(b.email, r.email) && SuppliedOrNull(b.phone, r.phone)
    ensures SuppliedOrNull(b.tempatLahir, r.tempatLahir) && SuppliedOrNull(b.tanggalLahir, r.tanggalLahir)
    ensures SuppliedOrNull(b.provinsi, r.alamat.provinsi) && SuppliedOrNull(b.kota, r.alamat.kota)
    ensures SuppliedOrNull(b.kecamatan, r.alamat.kecamatan) && SuppliedOrNull(b.kelurahan, r.alamat.kelurahan)
    ensures SuppliedOrNull(b.alamat, r.alamat.detail)
  {
    UserRecord(
      name := Or(b.name, Null),
      email := Or(b.email, Null),
      phone := Or(b.phone, Null),
      tempatLahir := Or(b.tempatLahir, Null),
      tanggalLahir := Or(b.tanggalLahir, Null),
      alamat := Address(
        provinsi := Or(b.provinsi, Null),
        kota := Or(b.kota, Null),
        kecamatan := Or(b.kecamatan, Null),
        kelurahan := Or(b.kelurahan, Null),
        detail := Or(b.alamat, Null)),
      isVerified := false,
      createdAt := now,
      lastLogin := now)
  }

  /** The document `POST /auth` writes for a user seen for the first time:
      each of name, email and phone from the body, else from the token's
      claims (name falls back to a placeholder, phone to null, email to
      nothing), no address or birth data, unverified, created and last seen
      now. */
  function CreatedOnLogin(b: SyncBody, user: Identity, now: int): (r: UserRecord)
    ensures !r.isVerified && r.createdAt == now && r.lastLogin == now
    ensures r.alamat == EmptyAddress && r.tempatLahir == Null && r.tanggalLahir == Null
    ensures Truthy(r.name)
    ensures Truthy(b.name) ==> r.name == b.name
    ensures !Truthy(b.name) && Truthy(user.name) ==> r.name == user.name
    ensures !Truthy(b.name) && !Truthy(user.name) ==> r.name == Str(DefaultName)
    ensures Truthy(b.email) ==> r.email == b.email
    ensures !Truthy(b.email) ==> r.email == user.email
    ensures Truthy(b.phone) ==> r.phone == b.phone
    ensures !Truthy(b.phone) ==> SuppliedOrNull(user.phoneNumber, r.phone)
    ensures Storable(r) <==> Truthy(b.email) || !user.email.Undefined?
  {
    UserRecord(
      name := Or(Or(b.name, user.name), Str(DefaultName)),
      email := Or(b.email, user.email),
      phone := Or(Or(b.phone, user.phoneNumber), Null),
      tempatLahir := Null,
      tanggalLahir := Null,
      alamat := EmptyAddress,
      isVerified := false,
      createdAt := now,
      lastLogin := now)
  }

  /** The document after `POST /auth` for a known user: last seen now; name,
      email and phone replaced by the body's value when it has one and kept
      otherwise, so a stored non-empty value is never cleared; everything
      else as it was. */
  function MergedOnLogin(stored: UserRecord, b: SyncBody, now: int): (r: UserRecord)
    ensures r.lastLogin == now
    ensures r.isVerified == stored.isVerified && r.createdAt == stored.createdAt
    ensures r.alamat == stored.alamat && r.tempatLahir == stored.tempatLahir && r.tanggalLahir == stored.tanggalLahir
    ensures Truthy(stored.name) ==> Truthy(r.name)
    ensures Truthy(stored.email) ==> Truthy(r.email)
    ensures Truthy(stored.phone) ==> Truthy(r.phone)
    ensures Truthy(b.name) ==> r.name == b.name
    ensures !Truthy(b.name) ==> r.name == stored.name
    ensures Truthy(b.email) ==> r.email == b.email
    ensures !Truthy(b.email) ==> r.email == stored.email
    ensures Truthy(b.phone) ==> r.phone == b.phone
    ensures !Truthy(b.phone) ==> SuppliedOrNull(stored.phone, r.phone)
  {
    stored.(
      lastLogin := now,
      name := Or(b.name, stored.name),
      email := Or(b.email, stored.email),
      phone := Or(Or(b.phone, stored.phone), Null))
  }
}
