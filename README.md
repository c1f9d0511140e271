# Vetsoft record models and navigation bar, in Dafny

Vetsoft is a veterinary clinic's web application. This project models two
parts of it:

- The **record models** of `app/models.py`. There are four record kinds:
  clients, vets, pets and medicines. Each kind has three pieces:
  - a validator, which turns a submitted form into a map from field name to
    error message;
  - a class-level `save_*`, which inserts one row only when the validator
    reports nothing;
  - an instance-level `update_*`, which overwrites the fields the form
    fills in and writes the instance back to its row.
- The **navigation bar context** of `app/context_processors.py`. A constant
  table of seven links is copied for each request, and each copy is marked
  active or not from the request's path.

Files and modules:

| file | module | what |
|---|---|---|
| `form_data.dfy` | `FormData` | submitted forms (`map<string, string>`), `data.get(k)` and `data.get(k, "")`, Python's `supplied or current` |
| `dates.dfy` | `Dates` | reading `dd/mm/yyyy` into a calendar date, the writer it inverts, round-trip lemmas |
| `validators.dfy` | `Validators` | `validate_client`, `validate_vet`, `validate_pet`, `validate_medicine` and their properties |
| `store.dfy` | `Store` | one table: rows keyed by an auto-incremented id (`objects.create`, `instance.save()`) |
| `models.dfy` | `Models` | classes `Client`, `Vet`, `Pet`, `Medicine` with `Save*` and `Update*` |
| `model_properties.dfy` | `ModelProperties` | what a save stores, idempotent updates, updates that skip validation |
| `navbar.dfy` | `Navbar` | the link table, `add_active`, `navbar`, which links are active |

Design of the record models:

- Validators are pure functions.
- Each record kind is a class. Its fields are the table's columns.
- `Save*` methods are static and change only the `Table` they are given.
  Their contracts give the whole new table:
  - on failure, the table is unchanged and the result is `(false, Some(errors))`;
  - on success, the table holds exactly one new row under a fresh id, and
    the result is `(true, None)`.
- `Update*` methods change the instance and its table. Their contracts say
  the instance now holds `XUpdated(old row, form)` and the table holds that
  row under the instance's id.

## Model

| member | source | states |
|---|---|---|
| `Dates.ParseDate` | app/models.py:193-196 | a date is read only from a ten-character `dd/mm/yyyy` text, and only a date that exists in the calendar (year 1 to 9999) is returned; otherwise `None` (the `ValueError` case) |
| `Dates.ParseFormat` | app/models.py:218 | writing a valid date as `dd/mm/yyyy` and reading it back gives the same date |
| `Dates.FormatParse` | app/models.py:218 | every text that reads as a date is exactly the zero-padded writing of that date |
| `Dates.ParseDateInjective` | app/models.py:193-196 | two accepted texts that read as the same date are the same text |
| `Validators.EmailError` | app/models.py:18-21 | an empty email gets the "required" message, a non-empty email without "@" gets the "valid" message, an email with "@" gets none |
| `Validators.ValidateClient` | app/models.py:5-23 | error keys lie within {name, phone, email}; name and phone are flagged exactly when empty, with their messages; email is flagged exactly as `EmailError` says |
| `Validators.ValidateVet` | app/models.py:61-79 | the same three checks and messages as for clients |
| `Validators.BirthdayError` | app/models.py:190-196 | an empty birthday gets the "formato" required message; a non-empty one that does not read as a date gets the "válida" message; one that reads as a date gets none |
| `Validators.ValidatePet` | app/models.py:177-198 | error keys lie within {name, breed, birthday}; name and breed are flagged exactly when empty; birthday is flagged exactly when it does not read as a date, with the message `BirthdayError` gives |
| `Validators.ValidateMedicine` | app/models.py:267-283 | error keys lie within {name, description, dose}; each is flagged exactly when empty, with its required message |
| `Validators.ClientAcceptedIff` | app/models.py:5-23 | a client form passes exactly when name and phone are non-empty and the email is non-empty and contains "@" |
| `Validators.VetValidatedAsClient` | app/models.py:61-79 | `validate_vet` and `validate_client` give the same errors on every form |
| `Validators.EmailMessagesExclusive` | app/models.py:18-21 | the "required" email message appears exactly for an empty email, and the "valid" one exactly for a non-empty email without "@", so never both |
| `Validators.ClientFieldLocal` | app/models.py:12-21 | two forms that agree on a field get the same verdict and message for that field |
| `Validators.PetFieldLocal` | app/models.py:184-196 | the same locality for pet forms |
| `Validators.MedicineFieldLocal` | app/models.py:274-281 | the same locality for medicine forms |
| `Validators.EmptyFormAllRequired` | app/models.py:274-281 | an empty form gets every required message at once, for all four validators |
| `Validators.PetAcceptedIff` | app/models.py:177-198 | a pet form passes exactly when name and breed are non-empty and the birthday reads as a date |
| `Validators.MedicineAcceptedIff` | app/models.py:267-283 | a medicine form passes exactly when name, description and dose are non-empty |
| `Validators.MedicineDoseHasNoRange` | app/models.py:280-281 | doses "0", "11" and "abc" all pass: there is no numeric or range check on the dose |
| `Store.Table.Create` | app/models.py:42-47 | one row is inserted under the previously unused id `nextId`; nothing else in the table changes |
| `Store.Table.Save` | app/models.py:57 | the row under the instance's id is replaced, or inserted when absent; nothing else changes |
| `Models.Client.SaveClient` | app/models.py:35-49 | succeeds exactly when `validate_client` reports nothing; on failure it returns the errors and leaves the table untouched; on success it adds exactly one row holding the submitted fields |
| `Models.Client.UpdateClient` | app/models.py:51-57 | each of name, email, phone and address takes the submitted text when non-empty and keeps its value otherwise; the row under the client's id is the new state; no validation |
| `Models.Vet.SaveVet` | app/models.py:91-104 | all or nothing, as for clients, with `validate_vet` |
| `Models.Vet.UpdateVet` | app/models.py:106-111 | name, email and phone are overwritten when the submitted text is non-empty; the row is written back |
| `Models.Pet.SavePet` | app/models.py:210-226 | all or nothing with `validate_pet`; on success the new row stores the birthday as the date it reads as |
| `Models.Pet.UpdatePet` | app/models.py:228-233 | name and breed are assigned on the instance first; a non-empty birthday that does not read as a date then ends the update with `ValueError`, with the birthday and the whole table unchanged; otherwise the updated row is saved |
| `Models.Medicine.SaveMedicine` | app/models.py:245-258 | all or nothing with `validate_medicine`; the dose is stored as submitted |
| `Models.Medicine.UpdateMedicine` | app/models.py:260-265 | name, description and dose are overwritten when the submitted text is non-empty; the row is written back |
| `ModelProperties.SavedClientHoldsInput` | app/models.py:42-47 | a successful client save stores the submitted name, phone, email and address, and the stored client passes the validator again |
| `ModelProperties.SavedVetHoldsInput` | app/models.py:98-102 | the same for vets |
| `ModelProperties.SavedPetHoldsInput` | app/models.py:217-224 | a successful pet save stores a valid date whose `dd/mm/yyyy` writing is exactly the submitted birthday; the stored pet passes the validator again |
| `ModelProperties.SavedMedicineHoldsInput` | app/models.py:252-256 | the same for medicines |
| `ModelProperties.OverlayIdempotent` | app/models.py:52 | overwriting a field with the same submitted text twice is the same as once |
| `ModelProperties.ClientUpdateIdempotent` | app/models.py:51-57 | applying the same client update twice equals applying it once |
| `ModelProperties.VetUpdateIdempotent` | app/models.py:106-111 | the same for vets |
| `ModelProperties.MedicineUpdateIdempotent` | app/models.py:260-265 | the same for medicines |
| `ModelProperties.PetUpdateIdempotent` | app/models.py:228-233 | a pet update that succeeds, applied again, succeeds with the same row |
| `ModelProperties.EmptyUpdateKeepsRow` | app/models.py:51-57 | an update whose submitted texts are all empty leaves every kind of row unchanged |
| `ModelProperties.VetUpdateIgnoresUnlisted` | app/models.py:106-111 | a submitted field other than name, email and phone has no effect on a vet update |
| `ModelProperties.ClientUpdateSkipsValidation` | app/models.py:51-57 | a valid client updated with an email without "@" stores a row the validator rejects: updates do not validate |
| `ModelProperties.PetUpdateRaisesIff` | app/models.py:231 | a pet update raises exactly on the forms whose birthday `validate_pet` calls not valid |
| `Navbar.AddActive` | app/context_processors.py:18-26 | the entry copies label, href and icon; it is active for `/` exactly on path `/`, and for any other href exactly when the path starts with it |
| `Navbar.NavbarFor` | app/context_processors.py:28 | one entry per link, in the same order, each a copy of its link with the active flag |
| `Navbar.NavbarContext` | app/context_processors.py:16-28 | the navigation context has one entry per link of the table |
| `Navbar.AtMostOneSectionActive` | app/context_processors.py:23-24 | when no section href is a prefix of another, at most one section link is active on any path |
| `Navbar.LinksPrefixFree` | app/context_processors.py:3-13 | no section href of the table is a prefix of another |
| `Navbar.HomeActiveIff` | app/context_processors.py:21-22 | Home is active exactly on path `/`, so it is inactive on every other path even though all paths start with `/` |
| `Navbar.SectionActiveIff` | app/context_processors.py:23-24 | every other link is active exactly when the path starts with its href |
| `Navbar.OnlyHomeActiveAtRoot` | app/context_processors.py:21-24 | on path `/` only Home is active |
| `Navbar.AtMostOneLinkActive` | app/context_processors.py:3-13 | on any path at most one non-Home link is active |

## Left out

- `app/views.py` is not part of this model. It handles HTTP requests, renders templates and redirects. Loading an instance (`get_object_or_404`) appears here only as the `Load` constructors. Deleting and listing records are library calls made there.
- `app/urls.py` is used only for the href strings of the link table. The hrefs assume the application is mounted at the site root, and `reverse()` is replaced by those constants.
- `Dates.ParseDate` reads only the fixed-width spelling `dd/mm/yyyy`. `datetime.strptime` also accepts one-digit days and months (`1/2/2020`) and some other spellings. The model rejects those, so it is stricter than the library on such inputs.
- Database details are not modelled:
  - column lengths (`max_length`);
  - `EmailField` checks;
  - the NOT NULL constraint that would reject a client saved without an `address` key (the model stores `None`);
  - conversion of the dose text to an integer column (the model stores the submitted text).
- Ids come from a counter (`Store.Table.nextId`). That is the auto-increment key without the database's own numbering rules.
- Form values are text only. Non-text values that Python callers could pass (an integer dose) are not modelled.
- `navbar` returns a lazy `map` object inside a dictionary under key `"links"`. The model returns the sequence of entries. The module-level link table is a constant, so nothing can mutate it.
- An update could be expected to re-validate the merged record and keep it unchanged on failure. The code does neither, and the model follows the code (`ModelProperties.ClientUpdateSkipsValidation`).
- The repository's test files also assert a later schema that this code does not have: city, speciality, breed choices, the "54" phone prefix, a 1–10 dose range, weight, products and providers. None of those is modelled.
- `validate_pet` and the `Pet` class appear twice in `app/models.py` with identical text. The model follows the second copy (lines 177-233), which is the one in effect.
- Concurrency between requests is not modelled. Each operation runs alone.
