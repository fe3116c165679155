/** The login page (src/components/LoginPage.tsx): a scanned `user:pass`
    value fills and submits the form; the physical scanner listens only when
    nothing is loading and no error message is shown. */
module LoginPage {
  import opened Wrappers
  import opened Text

  /** A user name and password: the form's two fields, and what it submits. */
  datatype Credentials = Credentials(username: string, password: string)

  /** `fillFromScanner`: the form after a scanned value and the call to
      `onSubmit`, if any. A value without ':' changes nothing; otherwise the
      part before the first ':' is the user name and the rest the password. */
  function FillFromScanner(form: Credentials, value: string): (r: (Credentials, Option<Credentials>))
    ensures ':' !in value ==> r == (form, None)
    ensures ':' in value ==>
      r.1.Some? && r.0 == r.1.value &&
      ':' !in r.1.value.username &&
      r.1.value.username + ":" + r.1.value.password == value
  {
    var splitIndex := IndexOf(value, ':');
    if splitIndex == -1 then (form, None)
    else
      var username := value[..splitIndex];
      var password := value[splitIndex + 1..];
      assert value == username + ":" + password;
      (Credentials(username, password), Some(Credentials(username, password)))
  }

  /** The split is the only one with a colon-free user name: any pair whose
      user name has no ':' and that joins back to the value is the one
      submitted. The password may itself contain ':'. */
  lemma SplitIsUnique(form: Credentials, value: string, username: string, password: string)
    requires ':' !in username && username + ":" + password == value
    ensures FillFromScanner(form, value).1 == Some(Credentials(username, password))
  {
    assert value[|username|] == ':';
    var i := IndexOf(value, ':');
    assert i == |username| by {
      assert value[..|username|] == username;
    }
    assert value[..i] == username;
    assert value[i + 1..] == password;
  }

  /** `handleSubmit`: the form submits whatever the fields hold. */
  function HandleSubmit(form: Credentials): (c: Credentials)
    ensures c.username == form.username && c.password == form.password
  {
    Credentials(form.username, form.password)
  }

  /** The error message shown after the `error` prop changes (`error ?? ''`);
      the three-second timer then clears it to "". */
  function DisplayedAfterErrorChange(error: Option<string>): string {
    error.GetOr("")
  }

  /** The physical scanner's `enabled` flag. */
  predicate PhysicalScannerEnabled(loading: bool, displayedErrorMessage: string) {
    !loading && displayedErrorMessage == ""
  }

  /** Right after the `error` prop changes, the physical scanner listens
      exactly when nothing is loading and there is no error, or only an
      empty one. */
  lemma ScannerAfterErrorChange(loading: bool, error: Option<string>)
    ensures PhysicalScannerEnabled(loading, DisplayedAfterErrorChange(error)) <==>
      !loading && (error.None? || error.value == "")
  {
  }

  /** A non-empty error turns the physical scanner off until its message is
      cleared; afterwards it depends on `loading` alone. */
  lemma ErrorPausesScanner(loading: bool, message: string)
    requires message != ""
    ensures !PhysicalScannerEnabled(loading, DisplayedAfterErrorChange(Some(message)))
    ensures PhysicalScannerEnabled(loading, "") <==> !loading
  {
  }
}
