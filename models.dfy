/**
 * The clinic's four record kinds. Each is a class whose fields mirror the
 * table's columns, with the two operations of the models:
 *
 *  - `SaveX` (a class-level operation) validates a submitted form and, only
 *    when the validator reports nothing, inserts one new row built from it;
 *    it answers `(true, None)` or `(false, Some(errors))`.
 *  - `UpdateX` (on a loaded instance) overwrites every field it lists with
 *    the submitted text when that text is non-empty, keeps the old value
 *    otherwise, and writes the instance back to its row. It validates nothing.
 *
 * The value a row holds is a datatype (`ClientRow`, ...); `XUpdated` is the
 * function that says what an update makes of a row.
 */
module Models {
  import opened FormData
  import opened Dates
  import opened Validators
  import opened Store

  // ---------------------------------------------------------------- Client

  datatype ClientRow = ClientRow(name: string, phone: string, email: string, address: Option<string>)

  /** The row `save_client` inserts: the submitted name, phone, email and address. */
  function NewClientRow(data: Data): ClientRow {
    ClientRow(Field(data, "name"), Field(data, "phone"), Field(data, "email"), Get(data, "address"))
  }

  /** What `update_client` makes of a row: each non-empty submitted field replaces the old one. */
  function ClientUpdated(row: ClientRow, data: Data): ClientRow {
    ClientRow(
      Overlay(Field(data, "name"), row.name),
      Overlay(Field(data, "phone"), row.phone),
      Overlay(Field(data, "email"), row.email),
      if Field(data, "address") != "" then Some(Field(data, "address")) else row.address)
  }

  class Client {
    const id: nat
    var name: string
    var phone: string
    var email: string
    var address: Option<string>

    function Row(): ClientRow
      reads this
    {
      ClientRow(name, phone, email, address)
    }

    /** An instance loaded from the row stored under `id`. */
    constructor Load(id: nat, row: ClientRow)
      ensures this.id == id && Row() == row
    {
      this.id := id;
      name, phone, email, address := row.name, row.phone, row.email, row.address;
    }

    /** `Client.save_client`: all or nothing. */
    static method SaveClient(table: Table<ClientRow>, data: Data) returns (ok: bool, errors: Option<Errors>)
      requires table.Valid()
      modifies table
      ensures table.Valid()
      ensures ok <==> ValidateClient(data) == map[]
      ensures ok ==>
        && errors == None
        && table.rows == old(table.rows)[old(table.nextId) := NewClientRow(data)]
        && old(table.nextId) !in old(table.rows)
        && |table.rows| == |old(table.rows)| + 1
      ensures !ok ==>
        && errors == Some(ValidateClient(data))
        && table.rows == old(table.rows) && table.nextId == old(table.nextId)
    {
      var e := ValidateClient(data);
      if |e.Keys| > 0 {
        return false, Some(e);
      }
      var _ := table.Create(NewClientRow(data));
      return true, None;
    }

    /** `Client.update_client`: overwrite the non-empty fields, then save. */
    method UpdateClient(table: Table<ClientRow>, data: Data)
      requires table.Valid()
      modifies this, table
      ensures table.Valid()
      ensures Row() == ClientUpdated(old(Row()), data)
      ensures table.rows == old(table.rows)[id := Row()]
      ensures table.nextId == Max(old(table.nextId), id + 1)
    {
      name := Overlay(Field(data, "name"), name);
      email := Overlay(Field(data, "email"), email);
      phone := Overlay(Field(data, "phone"), phone);
      address := if Field(data, "address") != "" then Some(Field(data, "address")) else address;
      table.Save(id, Row());
    }
  }

  // ---------------------------------------------------------------- Vet

  datatype VetRow = VetRow(name: string, email: string, phone: string)

  /** The row `save_vet` inserts. */
  function NewVetRow(data: Data): VetRow {
    VetRow(Field(data, "name"), Field(data, "email"), Field(data, "phone"))
  }

  /** What `update_vet` makes of a row: it lists name, email and phone only. */
  function VetUpdated(row: VetRow, data: Data): VetRow {
    VetRow(
      Overlay(Field(data, "name"), row.name),
      Overlay(Field(data, "email"), row.email),
      Overlay(Field(data, "phone"), row.phone))
  }

  class Vet {
    const id: nat
    var name: string
    var email: string
    var phone: string

    function Row(): VetRow
      reads this
    {
      VetRow(name, email, phone)
    }

    constructor Load(id: nat, row: VetRow)
      ensures this.id == id && Row() == row
    {
      this.id := id;
      name, email, phone := row.name, row.email, row.phone;
    }

    /** `Vet.save_vet`: all or nothing. */
    static method SaveVet(table: Table<VetRow>, data: Data) returns (ok: bool, errors: Option<Errors>)
      requires table.Valid()
      modifies table
      ensures table.Valid()
      ensures ok <==> ValidateVet(data) == map[]
      ensures ok ==>
        && errors == None
        && table.rows == old(table.rows)[old(table.nextId) := NewVetRow(data)]
        && old(table.nextId) !in old(table.rows)
        && |table.rows| == |old(table.rows)| + 1
      ensures !ok ==>
        && errors == Some(ValidateVet(data))
        && table.rows == old(table.rows) && table.nextId == old(table.nextId)
    {
      var e := ValidateVet(data);
      if |e.Keys| > 0 {
        return false, Some(e);
      }
      var _ := table.Create(NewVetRow(data));
      return true, None;
    }

    /** `Vet.update_vet`: overwrite the non-empty fields, then save. */
    method UpdateVet(table: Table<VetRow>, data: Data)
      requires table.Valid()
      modifies this, table
      ensures table.Valid()
      ensures Row() == VetUpdated(old(Row()), data)
      ensures table.rows == old(table.rows)[id := Row()]
      ensures table.nextId == Max(old(table.nextId), id + 1)
    {
      name := Overlay(Field(data, "name"), name);
      email := Overlay(Field(data, "email"), email);
      phone := Overlay(Field(data, "phone"), phone);
      table.Save(id, Row());
    }
  }

  // ---------------------------------------------------------------- Pet

  datatype PetRow = PetRow(name: string, breed: string, birthday: Date)

  /** The row `save_pet` inserts: the birthday is stored as the date it reads as. */
  function NewPetRow(data: Data): PetRow
    requires ParseDate(Field(data, "birthday")).Some?
  {
    PetRow(Field(data, "name"), Field(data, "breed"), ParseDate(Field(data, "birthday")).value)
  }

  /**
   * What `update_pet` makes of a row, or `None` where reading a non-empty
   * birthday raises `ValueError` and nothing is saved.
   */
  function PetUpdated(row: PetRow, data: Data): Option<PetRow> {
    var birthday := Field(data, "birthday");
    if birthday != "" && ParseDate(birthday).None? then None
    else
      Some(PetRow(
        Overlay(Field(data, "name"), row.name),
        Overlay(Field(data, "breed"), row.breed),
        if birthday != "" then ParseDate(birthday).value else row.birthday))
  }

  /** How `update_pet` ends: the row was saved, or the date reading raised first. */
  datatype UpdateOutcome = Saved | RaisedValueError

  class Pet {
    const id: nat
    var name: string
    var breed: string
    var birthday: Date

    function Row(): PetRow
      reads this
    {
      PetRow(name, breed, birthday)
    }

    constructor Load(id: nat, row: PetRow)
      ensures this.id == id && Row() == row
    {
      this.id := id;
      name, breed, birthday := row.name, row.breed, row.birthday;
    }

    /** `Pet.save_pet`: all or nothing; the birthday is read as a date before inserting. */
    static method SavePet(table: Table<PetRow>, data: Data) returns (ok: bool, errors: Option<Errors>)
      requires table.Valid()
      modifies table
      ensures table.Valid()
      ensures ok <==> ValidatePet(data) == map[]
      ensures ok ==>
        && errors == None
        && ParseDate(Field(data, "birthday")).Some?
        && table.rows == old(table.rows)[old(table.nextId) := NewPetRow(data)]
        && old(table.nextId) !in old(table.rows)
        && |table.rows| == |old(table.rows)| + 1
      ensures !ok ==>
        && errors == Some(ValidatePet(data))
        && table.rows == old(table.rows) && table.nextId == old(table.nextId)
    {
      var e := ValidatePet(data);
      if |e.Keys| > 0 {
        return false, Some(e);
      }
      var _ := table.Create(NewPetRow(data));
      return true, None;
    }

    /**
     * `Pet.update_pet`. Name and breed are assigned on the instance first;
     * a non-empty birthday that does not read as a date then raises before
     * the save, so the stored row keeps its old value while the instance
     * already carries the new name and breed.
     */
    method UpdatePet(table: Table<PetRow>, data: Data) returns (outcome: UpdateOutcome)
      requires table.Valid()
      modifies this, table
      ensures table.Valid()
      ensures name == Overlay(Field(data, "name"), old(name))
      ensures breed == Overlay(Field(data, "breed"), old(breed))
      ensures outcome == Saved <==> PetUpdated(old(Row()), data).Some?
      ensures outcome == Saved ==>
        && Some(Row()) == PetUpdated(old(Row()), data)
        && table.rows == old(table.rows)[id := Row()]
        && table.nextId == Max(old(table.nextId), id + 1)
      ensures outcome == RaisedValueError ==>
        && birthday == old(birthday)
        && table.rows == old(table.rows) && table.nextId == old(table.nextId)
    {
      name := Overlay(Field(data, "name"), name);
      breed := Overlay(Field(data, "breed"), breed);
      var text := Field(data, "birthday");
      if text != "" {
        match ParseDate(text)
        case None =>
          return RaisedValueError;
        case Some(d) =>
          birthday := d;
      }
      table.Save(id, Row());
      return Saved;
    }
  }

  // ---------------------------------------------------------------- Medicine

  datatype MedicineRow = MedicineRow(name: string, description: string, dose: string)

  /** The row `save_medicine` inserts; the dose is kept as the submitted text. */
  function NewMedicineRow(data: Data): MedicineRow {
    MedicineRow(Field(data, "name"), Field(data, "description"), Field(data, "dose"))
  }

  /** What `update_medicine` makes of a row. */
  function MedicineUpdated(row: MedicineRow, data: Data): MedicineRow {
    MedicineRow(
      Overlay(Field(data, "name"), row.name),
      Overlay(Field(data, "description"), row.description),
      Overlay(Field(data, "dose"), row.dose))
  }

  class Medicine {
    const id: nat
    var name: string
    var description: string
    var dose: string

    function Row(): MedicineRow
      reads this
    {
      MedicineRow(name, description, dose)
    }

    constructor Load(id: nat, row: MedicineRow)
      ensures this.id == id && Row() == row
    {
      this.id := id;
      name, description, dose := row.name, row.description, row.dose;
    }

    /** `Medicine.save_medicine`: all or nothing. */
    static method SaveMedicine(table: Table<MedicineRow>, data: Data) returns (ok: bool, errors: Option<Errors>)
      requires table.Valid()
      modifies table
      ensures table.Valid()
      ensures ok <==> ValidateMedicine(data) == map[]
      ensures ok ==>
        && errors == None
        && table.rows == old(table.rows)[old(table.nextId) := NewMedicineRow(data)]
        && old(table.nextId) !in old(table.rows)
        && |table.rows| == |old(table.rows)| + 1
      ensures !ok ==>
        && errors == Some(ValidateMedicine(data))
        && table.rows == old(table.rows) && table.nextId == old(table.nextId)
    {
      var e := ValidateMedicine(data);
      if |e.Keys| > 0 {
        return false, Some(e);
      }
      var _ := table.Create(NewMedicineRow(data));
      return true, None;
    }

    /** `Medicine.update_medicine`: overwrite the non-empty fields, then save. */
    method UpdateMedicine(table: Table<MedicineRow>, data: Data)
      requires table.Valid()
      modifies this, table
      ensures table.Valid()
      ensures Row() == MedicineUpdated(old(Row()), data)
      ensures table.rows == old(table.rows)[id := Row()]
      ensures table.nextId == Max(old(table.nextId), id + 1)
    {
      name := Overlay(Field(data, "name"), name);
      description := Overlay(Field(data, "description"), description);
      dose := Overlay(Field(data, "dose"), dose);
      table.Save(id, Row());
    }
  }
}
