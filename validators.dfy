/**
 * The four entity validators of the clinic's models. Each reads a submitted
 * form and returns a map from field name to the message to show next to
 * that field; an empty map means the form is valid. Every check looks at
 * one field only and all checks run, so the messages accumulate.
 */
module Validators {
  import opened FormData
  import opened Dates

  const NameRequired := "Por favor ingrese un nombre"
  const PhoneRequired := "Por favor ingrese un teléfono"
  const EmailRequired := "Por favor ingrese un email"
  const EmailInvalid := "Por favor ingrese un email valido"
  const BreedRequired := "Por favor ingrese una raza"
  const BirthdayRequired := "Por favor ingrese una fecha de nacimiento formato: dd/mm/yyyy."
  const BirthdayInvalid := "Por favor ingrese una fecha de nacimiento válida, formato: dd/mm/yyyy."
  const DescriptionRequired := "Por favor ingrese una descripción"
  const DoseRequired := "Por favor ingrese una dosis"

  /** `errors[key] = message` when `failed`, otherwise the map as it was. */
  function Flag(errors: Errors, failed: bool, key: string, message: string): Errors {
    if failed then errors[key := message] else errors
  }

  /** The email check shared by clients and vets: required, then an "@". */
  function EmailError(email: string): (r: Option<string>)
    ensures r == None <==> email != "" && '@' in email
    ensures r == Some(EmailRequired) <==> email == ""
    ensures r == Some(EmailInvalid) <==> email != "" && '@' !in email
  {
    if email == "" then Some(EmailRequired)
    else if '@' !in email then Some(EmailInvalid)
    else None
  }

  function FlagOption(errors: Errors, key: string, message: Option<string>): Errors {
    match message
    case Some(m) => errors[key := m]
    case None => errors
  }

  /** `validate_client`: name, phone and email are required; email needs an "@". */
  function ValidateClient(data: Data): (errors: Errors)
    ensures errors.Keys <= {"name", "phone", "email"}
    ensures "name" in errors <==> Field(data, "name") == ""
    ensures "name" in errors ==> errors["name"] == NameRequired
    ensures "phone" in errors <==> Field(data, "phone") == ""
    ensures "phone" in errors ==> errors["phone"] == PhoneRequired
    ensures "email" in errors <==> EmailError(Field(data, "email")).Some?
    ensures "email" in errors ==> Some(errors["email"]) == EmailError(Field(data, "email"))
  {
    var e := Flag(map[], Field(data, "name") == "", "name", NameRequired);
    var e := Flag(e, Field(data, "phone") == "", "phone", PhoneRequired);
    FlagOption(e, "email", EmailError(Field(data, "email")))
  }

  /** `validate_vet`: the same three checks, with the same messages, as for clients. */
  function ValidateVet(data: Data): (errors: Errors)
    ensures errors.Keys <= {"name", "phone", "email"}
    ensures "name" in errors <==> Field(data, "name") == ""
    ensures "name" in errors ==> errors["name"] == NameRequired
    ensures "phone" in errors <==> Field(data, "phone") == ""
    ensures "phone" in errors ==> errors["phone"] == PhoneRequired
    ensures "email" in errors <==> EmailError(Field(data, "email")).Some?
    ensures "email" in errors ==> Some(errors["email"]) == EmailError(Field(data, "email"))
  {
    var e := Flag(map[], Field(data, "name") == "", "name", NameRequired);
    var e := Flag(e, Field(data, "phone") == "", "phone", PhoneRequired);
    FlagOption(e, "email", EmailError(Field(data, "email")))
  }

  /** The birthday check: required, then readable as `dd/mm/yyyy`. */
  function BirthdayError(birthday: string): (r: Option<string>)
    ensures r == None <==> ParseDate(birthday).Some?
    ensures r == Some(BirthdayRequired) <==> birthday == ""
    ensures r == Some(BirthdayInvalid) <==> birthday != "" && ParseDate(birthday).None?
  {
    if birthday == "" then Some(BirthdayRequired)
    else if ParseDate(birthday).None? then Some(BirthdayInvalid)
    else None
  }

  /** `validate_pet`: name and breed are required; birthday must be a readable date. */
  function ValidatePet(data: Data): (errors: Errors)
    ensures errors.Keys <= {"name", "breed", "birthday"}
    ensures "name" in errors <==> Field(data, "name") == ""
    ensures "name" in errors ==> errors["name"] == NameRequired
    ensures "breed" in errors <==> Field(data, "breed") == ""
    ensures "breed" in errors ==> errors["breed"] == BreedRequired
    ensures "birthday" in errors <==> ParseDate(Field(data, "birthday")).None?
    ensures "birthday" in errors ==> Some(errors["birthday"]) == BirthdayError(Field(data, "birthday"))
  {
    var e := Flag(map[], Field(data, "name") == "", "name", NameRequired);
    var e := Flag(e, Field(data, "breed") == "", "breed", BreedRequired);
    FlagOption(e, "birthday", BirthdayError(Field(data, "birthday")))
  }

  /** `validate_medicine`: name, description and dose are required, nothing more. */
  function ValidateMedicine(data: Data): (errors: Errors)
    ensures errors.Keys <= {"name", "description", "dose"}
    ensures "name" in errors <==> Field(data, "name") == ""
    ensures "name" in errors ==> errors["name"] == NameRequired
    ensures "description" in errors <==> Field(data, "description") == ""
    ensures "description" in errors ==> errors["description"] == DescriptionRequired
    ensures "dose" in errors <==> Field(data, "dose") == ""
    ensures "dose" in errors ==> errors["dose"] == DoseRequired
  {
    var e := Flag(map[], Field(data, "name") == "", "name", NameRequired);
    var e := Flag(e, Field(data, "description") == "", "description", DescriptionRequired);
    Flag(e, Field(data, "dose") == "", "dose", DoseRequired)
  }

  // Properties of the validators as a whole.

  /** A client form is accepted exactly when name and phone are filled and the email has an "@". */
  lemma ClientAcceptedIff(data: Data)
    ensures ValidateClient(data) == map[] <==>
      Field(data, "name") != "" && Field(data, "phone") != ""
      && Field(data, "email") != "" && '@' in Field(data, "email")
  {
  }

  /** A vet form is checked exactly as a client form is, message for message. */
  lemma VetValidatedAsClient(data: Data)
    ensures ValidateVet(data) == ValidateClient(data)
  {
  }

  /**
   * The two email messages partition the failing emails: the "required" one
   * for an empty email only, the "valid" one for a non-empty email without "@".
   */
  lemma EmailMessagesExclusive(data: Data)
    ensures var errors := ValidateClient(data); var email := Field(data, "email");
      && ("email" in errors && errors["email"] == EmailRequired <==> email == "")
      && ("email" in errors && errors["email"] == EmailInvalid <==> email != "" && '@' !in email)
  {
  }

  /**
   * Each error depends on its own field only: two forms that agree on a
   * field get the same verdict, and the same message, for it.
   */
  lemma ClientFieldLocal(a: Data, b: Data, key: string)
    requires Field(a, key) == Field(b, key)
    ensures key in ValidateClient(a) <==> key in ValidateClient(b)
    ensures key in ValidateClient(a) ==> ValidateClient(a)[key] == ValidateClient(b)[key]
  {
  }

  lemma PetFieldLocal(a: Data, b: Data, key: string)
    requires Field(a, key) == Field(b, key)
    ensures key in ValidatePet(a) <==> key in ValidatePet(b)
    ensures key in ValidatePet(a) ==> ValidatePet(a)[key] == ValidatePet(b)[key]
  {
  }

  lemma MedicineFieldLocal(a: Data, b: Data, key: string)
    requires Field(a, key) == Field(b, key)
    ensures key in ValidateMedicine(a) <==> key in ValidateMedicine(b)
    ensures key in ValidateMedicine(a) ==> ValidateMedicine(a)[key] == ValidateMedicine(b)[key]
  {
  }

  /** An empty form gets every "required" message at once. */
  lemma EmptyFormAllRequired()
    ensures ValidateClient(map[]) ==
      map["name" := NameRequired, "phone" := PhoneRequired, "email" := EmailRequired]
    ensures ValidateVet(map[]) ==
      map["name" := NameRequired, "phone" := PhoneRequired, "email" := EmailRequired]
    ensures ValidatePet(map[]) ==
      map["name" := NameRequired, "breed" := BreedRequired, "birthday" := BirthdayRequired]
    ensures ValidateMedicine(map[]) ==
      map["name" := NameRequired, "description" := DescriptionRequired, "dose" := DoseRequired]
  {
  }

  /** A pet form is accepted exactly when name and breed are filled and the birthday reads as a date. */
  lemma PetAcceptedIff(data: Data)
    ensures ValidatePet(data) == map[] <==>
      Field(data, "name") != "" && Field(data, "breed") != ""
      && ParseDate(Field(data, "birthday")).Some?
  {
  }

  /**
   * The dose is only required to be present: any non-empty text, numeric or
   * not and in any range, passes.
   */
  lemma MedicineAcceptedIff(data: Data)
    ensures ValidateMedicine(data) == map[] <==>
      Field(data, "name") != "" && Field(data, "description") != "" && Field(data, "dose") != ""
  {
  }

  lemma MedicineDoseHasNoRange()
    ensures ValidateMedicine(map["name" := "Ivermectina", "description" := "antiparasitario", "dose" := "0"]) == map[]
    ensures ValidateMedicine(map["name" := "Ivermectina", "description" := "antiparasitario", "dose" := "11"]) == map[]
    ensures ValidateMedicine(map["name" := "Ivermectina", "description" := "antiparasitario", "dose" := "abc"]) == map[]
  {
  }
}
