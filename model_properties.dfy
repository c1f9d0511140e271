/**
 * Properties that relate the record operations to the validators: what a
 * successful save stores, what an update does when repeated, and what an
 * update lets through because it does not validate.
 */
module ModelProperties {
  import opened FormData
  import opened Dates
  import opened Validators
  import opened Models

  /** A stored client shown back as the form that would describe it. */
  function ClientForm(row: ClientRow): Data {
    map["name" := row.name, "phone" := row.phone, "email" := row.email]
  }

  function VetForm(row: VetRow): Data {
    map["name" := row.name, "phone" := row.phone, "email" := row.email]
  }

  function PetForm(row: PetRow): Data
    requires ValidDate(row.birthday)
  {
    map["name" := row.name, "breed" := row.breed, "birthday" := FormatDate(row.birthday)]
  }

  function MedicineForm(row: MedicineRow): Data {
    map["name" := row.name, "description" := row.description, "dose" := row.dose]
  }

  // ---------------------------------------------------------------- save

  /**
   * The row a successful `save_client` stores holds the submitted texts,
   * and shown back as a form it passes the validator again.
   */
  lemma SavedClientHoldsInput(data: Data)
    requires ValidateClient(data) == map[]
    ensures "name" in data && "phone" in data && "email" in data
    ensures NewClientRow(data) == ClientRow(data["name"], data["phone"], data["email"], Get(data, "address"))
    ensures ValidateClient(ClientForm(NewClientRow(data))) == map[]
  {
  }

  lemma SavedVetHoldsInput(data: Data)
    requires ValidateVet(data) == map[]
    ensures "name" in data && "phone" in data && "email" in data
    ensures NewVetRow(data) == VetRow(data["name"], data["email"], data["phone"])
    ensures ValidateVet(VetForm(NewVetRow(data))) == map[]
  {
  }

  /**
   * A successful `save_pet` stores a calendar date that, written back as
   * `dd/mm/yyyy`, is exactly the submitted birthday text; the stored pet
   * shown back as a form passes the validator again.
   */
  lemma SavedPetHoldsInput(data: Data)
    requires ValidatePet(data) == map[]
    ensures "name" in data && "breed" in data && "birthday" in data
    ensures var row := NewPetRow(data);
      && row.name == data["name"] && row.breed == data["breed"]
      && ValidDate(row.birthday) && FormatDate(row.birthday) == data["birthday"]
    ensures ValidatePet(PetForm(NewPetRow(data))) == map[]
  {
    PetAcceptedIff(data);
    FormatParse(Field(data, "birthday"));
    var row := NewPetRow(data);
    ParseFormat(row.birthday);
    PetAcceptedIff(PetForm(row));
  }

  lemma SavedMedicineHoldsInput(data: Data)
    requires ValidateMedicine(data) == map[]
    ensures "name" in data && "description" in data && "dose" in data
    ensures NewMedicineRow(data) == MedicineRow(data["name"], data["description"], data["dose"])
    ensures ValidateMedicine(MedicineForm(NewMedicineRow(data))) == map[]
  {
  }

  // ---------------------------------------------------------------- update

  /** Overwriting with the same text twice is overwriting once. */
  lemma OverlayIdempotent(supplied: string, current: string)
    ensures Overlay(supplied, Overlay(supplied, current)) == Overlay(supplied, current)
  {
  }

  /** Applying the same update twice equals applying it once. */
  lemma ClientUpdateIdempotent(row: ClientRow, data: Data)
    ensures ClientUpdated(ClientUpdated(row, data), data) == ClientUpdated(row, data)
  {
  }

  lemma VetUpdateIdempotent(row: VetRow, data: Data)
    ensures VetUpdated(VetUpdated(row, data), data) == VetUpdated(row, data)
  {
  }

  lemma MedicineUpdateIdempotent(row: MedicineRow, data: Data)
    ensures MedicineUpdated(MedicineUpdated(row, data), data) == MedicineUpdated(row, data)
  {
  }

  lemma PetUpdateIdempotent(row: PetRow, data: Data)
    ensures PetUpdated(row, data).Some? ==>
      PetUpdated(PetUpdated(row, data).value, data) == PetUpdated(row, data)
  {
  }

  /** An update with an empty form, or with only empty texts, changes nothing. */
  lemma EmptyUpdateKeepsRow(data: Data, c: ClientRow, v: VetRow, p: PetRow, m: MedicineRow)
    requires forall key :: key in data ==> data[key] == ""
    ensures ClientUpdated(c, data) == c
    ensures VetUpdated(v, data) == v
    ensures PetUpdated(p, data) == Some(p)
    ensures MedicineUpdated(m, data) == m
  {
  }

  /**
   * `update_vet` lists name, email and phone: a submitted field it does not
   * list has no effect on the row.
   */
  lemma VetUpdateIgnoresUnlisted(row: VetRow, data: Data, key: string, text: string)
    requires key !in {"name", "email", "phone"}
    ensures VetUpdated(row, data[key := text]) == VetUpdated(row, data)
  {
  }

  /**
   * Updates do not validate: a valid stored client updated with an email
   * that has no "@" stores a row the validator rejects.
   */
  lemma ClientUpdateSkipsValidation(row: ClientRow)
    requires ValidateClient(ClientForm(row)) == map[]
    ensures var updated := ClientUpdated(row, map["email" := "sin-arroba"]);
      && updated.email == "sin-arroba"
      && ValidateClient(ClientForm(updated)) == map["email" := EmailInvalid]
  {
  }

  /**
   * `update_pet` fails exactly on the forms whose birthday `validate_pet`
   * calls not valid (non-empty but not a date); an empty birthday, which
   * `validate_pet` would reject as missing, keeps the old date instead.
   */
  lemma PetUpdateRaisesIff(row: PetRow, data: Data)
    ensures PetUpdated(row, data).None? <==>
      "birthday" in ValidatePet(data) && ValidatePet(data)["birthday"] == BirthdayInvalid
  {
  }
}
