/**
 * The pieces of the portal put together.
 *
 * The patient card: registration stores the profile address
 * `origin + "/login/patient?id=" + uid` (src/context/AuthContext.tsx), the
 * registration page writes that address to a card as one `url` record
 * (src/pages/RegisterPatientPage.tsx, src/components/nfc/NFCWriter.tsx), the
 * staff dashboard's reader decodes it (src/components/nfc/NFCReader.tsx) and
 * takes the patient id out of it (src/pages/StaffDashboard.tsx). For an
 * origin of the usual shape and an id made of characters without meaning in
 * a URL, the id read back is the id registered.
 *
 * The staff sign-in: the staff login page hands no expected role to the
 * session provider, so an email sign-in only gets through for an account
 * whose profile has no role at all.
 */
module EndToEnd {
  import opened Common
  import opened AuthContext
  import opened Ndef
  import opened StaffDashboard
  import NfcReader
  import NfcWriter
  import StaffLogin

  /** A character the id parameter carries through unchanged: no space or
      control character, and none of `&`, `#`, `%`, `+`. */
  predicate IsPlainIdChar(c: char)
  {
    ' ' < c && c != '&' && c != '#' && c != '%' && c != '+'
  }

  /** A user id that reads back as itself from a query string. */
  predicate IsPlainId(uid: string)
  {
    uid != [] && forall k :: 0 <= k < |uid| ==> IsPlainIdChar(uid[k])
  }

  /** An origin such as `https://host:port`: it parses as a URL and has no
      query or fragment of its own. */
  predicate IsOrigin(origin: string)
  {
    ParsesAsUrl(origin) && forall k :: 0 <= k < |origin| ==> origin[k] != '?' && origin[k] != '#'
  }

  /** The profile address parses as a URL, with the origin's scheme. */
  lemma ProfileUrlParses(origin: string, uid: string)
    requires IsOrigin(origin)
    ensures ParsesAsUrl(ProfileUrl(origin, uid))
  {
    var url := ProfileUrl(origin, uid);
    assert url == origin + (PatientLoginPath + ("?id=" + uid));
    forall k | 0 <= k < |origin|
      ensures url[k] == origin[k]
    {
    }
    IndexOfIs(url, ':', IndexOf(origin, ':'));
  }

  /** The query of the profile address is the `id` parameter alone. */
  lemma ProfileUrlQuery(origin: string, uid: string)
    requires IsOrigin(origin) && IsPlainId(uid)
    ensures QueryOf(ProfileUrl(origin, uid)) == "id=" + uid
  {
    var url := ProfileUrl(origin, uid);
    var q := |origin| + |PatientLoginPath|;
    var tail := "?id=" + uid;
    assert url == origin + (PatientLoginPath + tail);
    forall k | 0 <= k < |url|
      ensures url[k] != '#'
      ensures k < q ==> url[k] != '?'
    {
      if k < |origin| {
        assert url[k] == origin[k];
      } else if k < q {
        assert url[k] == PatientLoginPath[k - |origin|];
      } else {
        assert url[k] == tail[k - q];
      }
    }
    IndexOfIs(url, '#', |url|);
    assert url[..|url|] == url;
    assert url[q] == '?';
    IndexOfIs(url, '?', q);
    assert url[q + 1..] == "id=" + uid;
  }

  /** A query made of the `id` parameter alone yields its value. */
  lemma IdQueryYieldsId(uid: string)
    requires IsPlainId(uid)
    ensures SearchParam("id=" + uid, "id") == Some(uid)
  {
    var query := "id=" + uid;
    forall k | 0 <= k < |query|
      ensures query[k] != '&'
    {
      if k >= 3 {
        assert query[k] == uid[k - 3];
      }
    }
    IndexOfIs(query, '&', |query|);
    assert query[..|query|] == query;
    IndexOfIs(query, '=', 2);
    assert query[..2] == "id";
    assert query[3..] == uid;
  }

  /** The staff dashboard finds the registered uid in the profile address. */
  lemma ProfileUrlYieldsId(origin: string, uid: string)
    requires IsOrigin(origin) && IsPlainId(uid)
    ensures ExtractPatientId(ProfileUrl(origin, uid)) == Some(uid)
  {
    ProfileUrlParses(origin, uid);
    ProfileUrlQuery(origin, uid);
    IdQueryYieldsId(uid);
  }

  /** A card written with a patient's profile address yields, once read on
      the dashboard, exactly that address and from it the patient's uid. */
  lemma CardYieldsRegisteredId(origin: string, uid: string, codec: TextCodec)
    requires IsOrigin(origin) && IsPlainId(uid)
    requires RoundTrips(codec, ProfileUrl(origin, uid))
    ensures var payloads := DecodedPayloads(Written(UrlMessage(ProfileUrl(origin, uid)), codec.encode).records, codec.decode);
            payloads == [ProfileUrl(origin, uid)] && ExtractPatientId(payloads[0]) == Some(uid)
  {
    UrlMessageRoundTrip(ProfileUrl(origin, uid), codec);
    ProfileUrlYieldsId(origin, uid);
  }

  /** Registration, card writing on the last wizard step, and the scan on the
      staff dashboard, run through the session provider, the writer, the
      reader and the dashboard. `write` is the outcome of the platform write;
      the other outcomes are those of `RegisterPatient`. Returns the
      registration's outcome and the id the dashboard took from the card (if
      any card was written). */
  method RegisterWriteAndScan(origin: string, name: string, create: Attempt<User>, update: Attempt<()>,
                              writeUser: Attempt<()>, writePatient: Attempt<()>, write: Attempt<()>, codec: TextCodec)
    returns (registered: Attempt<string>, scanned: Option<string>)
    requires IsOrigin(origin)
    requires create.Resolved? ==> IsPlainId(create.value.uid) && RoundTrips(codec, ProfileUrl(origin, create.value.uid))
    ensures registered.Resolved? ==> create.Resolved? && registered.value == create.value.uid
    ensures registered.Resolved? && write.Resolved? ==> scanned == Some(registered.value)
    ensures registered.Rejected? || write.Rejected? ==> scanned.None?
  {
    var auth := new AuthProvider(origin, None, map[], map[]);
    registered := auth.RegisterPatient(name, create, update, writeUser, writePatient);
    if registered.Rejected? {
      return registered, None;
    }
    var uid := registered.value;

    // the wizard's card step: a writer for the address the page builds from
    // the returned id, with only the success callback given
    var writer := new NfcWriter.Writer(true, ProfileUrl(origin, uid), true, false);
    var issued, _ := writer.WriteToTag();
    var _ := writer.Settle(write);
    if write.Rejected? {
      return registered, None;
    }
    var card := Written(issued.value, codec.encode);

    // the dashboard opens its reader panel and a scan is started
    var dashboard := new Dashboard();
    dashboard.ToggleNfcReader();
    var reader := new NfcReader.Reader(true, true);
    reader.ProbeSupport(true);
    var _ := reader.ScanEffect(Resolved(()));
    var delivered := reader.OnReading(card, codec.decode);

    CardYieldsRegisteredId(origin, uid, codec);
    scanned := dashboard.HandleNfcRead(delivered[0]);
  }

  /** The email sign-in of the staff login page, through the session
      provider: `users` is the profile store, the other outcomes those of
      `LoginWithEmail`. Returns where the page navigates, its error message,
      and who is signed in afterwards. */
  method StaffEmailSignIn(tab: Role, email: string, password: string, users: map<string, UserData>,
                          signIn: Attempt<User>, read: Attempt<()>, signOut: Attempt<()>)
    returns (navigateTo: Option<string>, error: Option<string>, signedIn: Option<User>)
    requires tab == Doctor || tab == Nurse
    // an invalid form signs nobody in and shows no message
    ensures !StaffLogin.IsFormValid(email, password) ==> navigateTo.None? && error.None? && signedIn.None?
    // only an account without a stored role reaches the staff dashboard
    ensures navigateTo.Some? ==>
              navigateTo == Some(StaffDashboardPath) &&
              signedIn.Some? && signedIn.value.uid in users && users[signedIn.value.uid].role.None?
    // a doctor or nurse account is turned away and signed out again
    ensures StaffLogin.IsFormValid(email, password) && signIn.Resolved? && read.Resolved? &&
            signIn.value.uid in users && users[signIn.value.uid].role.Some? && signOut.Resolved? ==>
              navigateTo.None? && error == Some(StaffLogin.EmailLoginFailedMessage) && signedIn.None?
  {
    var page := new StaffLogin.LoginPage();
    page.Edit(tab, email, password);
    var auth := new AuthProvider("", None, users, map[]);
    var request := page.BeginEmailLogin();
    if request.None? {
      return None, page.error, auth.currentUser;
    }
    var r := auth.LoginWithEmail(request.value.expectedRole, signIn, read, signOut);
    navigateTo := page.FinishEmailLogin(if r.Resolved? then Resolved(()) else Rejected(r.reason));
    error := page.error;
    signedIn := auth.currentUser;
  }
}
