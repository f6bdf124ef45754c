/** The personal-details form (`app/profile/details/page.tsx`): initialised from the
    logged-in user, edited input by input (with the `address.` prefix selecting a
    nested field), and reset on cancel. */
module ProfileDetails {
  import opened Wrappers
  import opened Text
  import Auth

  /** `formData`: the top-level inputs by name and the nested `address` object. */
  datatype ProfileForm = ProfileForm(fields: map<string, string>, address: map<string, string>)

  /** The `useState` default before the user is known. */
  const DefaultForm: ProfileForm := ProfileForm(
    map["firstName" := "", "lastName" := "", "email" := "", "phone" := ""],
    map["street" := "", "city" := "", "postalCode" := "", "country" := "France"])

  /** `s || fallback`: the empty string is replaced too. */
  function OrElse(s: string, fallback: string): string {
    if s == "" then fallback else s
  }

  /** `user.address?.<f> || fallback` */
  function AddressPart(a: Option<Auth.Address>, part: Auth.Address -> string, fallback: string): string {
    match a
    case None => fallback
    case Some(addr) => OrElse(part(addr), fallback)
  }

  /** The form built from the user (the effect and `handleCancel` build the same one). */
  function InitForm(u: Auth.User): (f: ProfileForm)
    ensures f.fields.Keys == {"firstName", "lastName", "email", "phone"}
    ensures f.address.Keys == {"street", "city", "postalCode", "country"}
    ensures f.fields["firstName"] == u.firstName && f.fields["lastName"] == u.lastName
    ensures f.fields["email"] == u.email
    ensures f.fields["phone"] == (if u.phone.Some? then u.phone.value else "")
    ensures u.address.None? ==> f.address == DefaultForm.address
    ensures u.address.Some? ==>
      && f.address["street"] == u.address.value.street
      && f.address["city"] == u.address.value.city
      && f.address["postalCode"] == u.address.value.postalCode
      && f.address["country"] == OrElse(u.address.value.country, "France")
  {
    ProfileForm(
      map["firstName" := OrElse(u.firstName, ""), "lastName" := OrElse(u.lastName, ""),
          "email" := OrElse(u.email, ""), "phone" := OrElse(u.phone.GetOr(""), "")],
      map["street" := AddressPart(u.address, (a: Auth.Address) => a.street, ""),
          "city" := AddressPart(u.address, (a: Auth.Address) => a.city, ""),
          "postalCode" := AddressPart(u.address, (a: Auth.Address) => a.postalCode, ""),
          "country" := AddressPart(u.address, (a: Auth.Address) => a.country, "France")])
  }

  /** A user with nothing filled in and no address gets exactly the default form. */
  lemma BlankUserGetsDefaultForm(u: Auth.User)
    requires u.firstName == "" && u.lastName == "" && u.email == ""
    requires u.phone.None? && u.address.None?
    ensures InitForm(u) == DefaultForm
  {
  }

  /** An empty stored country shows as "France". */
  lemma EmptyCountryShowsFrance(u: Auth.User)
    requires u.address.Some? && u.address.value.country == ""
    ensures InitForm(u).address["country"] == "France"
  {
  }

  /** `handleInputChange`: a name starting with `address.` sets the address field named
      by the second dot-separated piece; any other name sets that top-level field. */
  function WithInput(form: ProfileForm, name: string, value: string): ProfileForm {
    if StartsWith(name, "address.") then
      AddressNameSplits(name);
      form.(address := form.address[Split(name, '.')[1] := value])
    else
      form.(fields := form.fields[name := value])
  }

  /** A name with the `address.` prefix has at least two dot-separated pieces. */
  lemma AddressNameSplits(name: string)
    requires StartsWith(name, "address.")
    ensures |Split(name, '.')| >= 2
  {
    assert name[7] == '.';
    SplitAtSep(name, 7);
  }

  /** A string with the separator at `k` has at least two pieces. */
  lemma {:induction false} SplitAtSep(s: string, k: nat)
    requires k < |s| && s[k] == '.'
    ensures |Split(s, '.')| >= 2
    decreases k
  {
    if k > 0 && s[0] != '.' {
      SplitAtSep(s[1..], k - 1);
    }
  }

  /** `"address." + f` for a field name without dots selects exactly `f`. */
  lemma {:induction false} AddressFieldName(f: string)
    requires '.' !in f
    ensures StartsWith("address." + f, "address.")
    ensures |Split("address." + f, '.')| >= 2 && Split("address." + f, '.')[1] == f
  {
    var n := "address." + f;
    assert n[..8] == "address.";
    SplitNoSep(f, '.');
    var tail := n[8..];
    assert tail == f;
    assert n[7..] == ['.'] + f;
    SplitPrefix("address", n[7..]);
    assert n == "address" + n[7..];
  }

  /** A separator-free prefix becomes the first piece, followed by the pieces after
      the separator that ends it. */
  lemma {:induction false} SplitPrefix(p: string, rest: string)
    requires '.' !in p && rest != [] && rest[0] == '.'
    ensures Split(p + rest, '.') == [p] + Split(rest[1..], '.')
    decreases |p|
  {
    if p == [] {
      assert p + rest == rest;
    } else {
      assert (p + rest)[1..] == p[1..] + rest;
      SplitPrefix(p[1..], rest);
      assert [p[0]] + p[1..] == p;
    }
  }

  /** An `address.X` input changes `address[X]` and nothing else. */
  lemma AddressInputChangesOneField(form: ProfileForm, f: string, value: string)
    requires '.' !in f
    ensures WithInput(form, "address." + f, value) == form.(address := form.address[f := value])
  {
    AddressFieldName(f);
  }

  /** Any other input changes only its own top-level field. */
  lemma TopLevelInputChangesOneField(form: ProfileForm, name: string, value: string)
    requires !StartsWith(name, "address.")
    ensures WithInput(form, name, value).address == form.address
    ensures WithInput(form, name, value).fields == form.fields[name := value]
  {
  }

  /** The eight inputs the page renders. */
  const InputNames: set<string> := {
    "firstName", "lastName", "email", "phone",
    "address.street", "address.city", "address.postalCode", "address.country"}

  /** Every rendered input keeps the shape of the form: the same top-level keys and
      the same address keys. */
  lemma InputsKeepShape(form: ProfileForm, name: string, value: string)
    requires form.fields.Keys == DefaultForm.fields.Keys && form.address.Keys == DefaultForm.address.Keys
    requires name in InputNames
    ensures WithInput(form, name, value).fields.Keys == form.fields.Keys
    ensures WithInput(form, name, value).address.Keys == form.address.Keys
  {
    if name in {"firstName", "lastName", "email", "phone"} {
      assert name[0] != 'a';
      NotAddressInput(name);
      TopLevelInputChangesOneField(form, name, value);
    } else {
      var f := name[8..];
      assert name == "address." + f by {
        assert name[..8] == "address.";
      }
      assert f in form.address.Keys && '.' !in f;
      AddressInputChangesOneField(form, f, value);
    }
  }

  /** A name that does not start with `a` is not an address input. */
  lemma NotAddressInput(name: string)
    requires name != [] && name[0] != 'a'
    ensures !StartsWith(name, "address.")
  {
  }

  class DetailsState {
    var isEditing: bool
    var formData: ProfileForm

    constructor ()
      ensures !isEditing && formData == DefaultForm
    {
      isEditing := false;
      formData := DefaultForm;
    }

    /** The effect run once the user is known. */
    method LoadUser(u: Auth.User)
      modifies this
      ensures formData == InitForm(u) && isEditing == old(isEditing)
    {
      formData := InitForm(u);
    }

    /** The "Modifier" button. */
    method StartEditing()
      modifies this
      ensures isEditing && formData == old(formData)
    {
      isEditing := true;
    }

    method HandleInputChange(name: string, value: string)
      modifies this
      ensures formData == WithInput(old(formData), name, value)
      ensures isEditing == old(isEditing)
    {
      if StartsWith(name, "address.") {
        AddressNameSplits(name);
        var addressField := Split(name, '.')[1];
        formData := formData.(address := formData.address[addressField := value]);
      } else {
        formData := formData.(fields := formData.fields[name := value]);
      }
    }

    /** `handleCancel`: back to the form built from the user, out of edit mode. */
    method HandleCancel(u: Auth.User)
      modifies this
      ensures formData == InitForm(u) && !isEditing
    {
      formData := InitForm(u);
      isEditing := false;
    }
  }
}
