/**
 * The settings page (src/pages/Settings.tsx): editing the salon profile and the lists of
 * services and barbers. The page keeps its own copies of the lists; only the profile fields
 * are ever sent to the session store.
 */
module Settings {
  import opened Wrappers
  import opened ArrayOps
  import opened SessionStore
  import SalonStore

  /** The characters `String.prototype.trim` strips: white space and line terminators. */
  predicate IsSpace(c: char) {
    c == '\t' || c == '\U{000B}' || c == '\U{000C}' || c == ' ' || c == '\U{00A0}' ||
    c == '\U{FEFF}' || c == '\U{1680}' || ('\U{2000}' <= c <= '\U{200A}') || c == '\U{202F}' ||
    c == '\U{205F}' || c == '\U{3000}' ||
    c == '\n' || c == '\r' || c == '\U{2028}' || c == '\U{2029}'
  }

  /** `s` without its leading white space. */
  function TrimStart(s: string): (r: string)
    ensures |r| <= |s| && r == s[|s| - |r|..]
    ensures r == [] || !IsSpace(r[0])
    ensures forall i :: 0 <= i < |s| - |r| ==> IsSpace(s[i])
  {
    if s != [] && IsSpace(s[0]) then TrimStart(s[1..]) else s
  }

  /** `s` without its trailing white space. */
  function TrimEnd(s: string): (r: string)
    ensures |r| <= |s| && r == s[..|r|]
    ensures r == [] || !IsSpace(r[|r| - 1])
    ensures forall i :: |r| <= i < |s| ==> IsSpace(s[i])
  {
    if s != [] && IsSpace(s[|s| - 1]) then TrimEnd(s[..|s| - 1]) else s
  }

  /**
   * `r` is the stretch of `s` starting at `k` with only white space before and after it in `s`,
   * and, when it is not empty, it starts and ends with non-space.
   */
  predicate TrimmedAt(s: string, k: nat, r: string) {
    k + |r| <= |s| && r == s[k..k + |r|] &&
    (forall i :: 0 <= i < k ==> IsSpace(s[i])) && (forall i :: k + |r| <= i < |s| ==> IsSpace(s[i])) &&
    (r != [] ==> !IsSpace(r[0]) && !IsSpace(r[|r| - 1]))
  }

  /**
   * `s.trim()`: the stretch of `s` left once the white space at both ends is dropped; empty
   * exactly when `s` is all white space.
   */
  function Trim(s: string): (r: string)
    ensures TrimmedAt(s, |s| - |TrimStart(s)|, r)
    ensures r == [] <==> forall i :: 0 <= i < |s| ==> IsSpace(s[i])
  {
    TrimStartThenEnd(s);
    TrimEnd(TrimStart(s))
  }

  lemma TrimStartThenEnd(s: string)
    ensures TrimmedAt(s, |s| - |TrimStart(s)|, TrimEnd(TrimStart(s)))
    ensures TrimEnd(TrimStart(s)) == [] <==> forall i :: 0 <= i < |s| ==> IsSpace(s[i])
  {
    var l := TrimStart(s);
    var r := TrimEnd(l);
    assert |l| <= |s| && l == s[|s| - |l|..] && (l == [] || !IsSpace(l[0]));
    assert |r| <= |l| && r == l[..|r|] && (r == [] || !IsSpace(r[|r| - 1]));
    TrimSpan(s, l, r);
  }

  /**
   * A prefix `r` of a suffix `l` of `s`, where `l` drops only leading spaces of `s` and `r` only
   * trailing spaces of `l`, is a stretch of `s` with only spaces around it; it is empty exactly
   * when `s` is all spaces.
   */
  lemma TrimSpan(s: string, l: string, r: string)
    requires |l| <= |s| && l == s[|s| - |l|..] && (l == [] || !IsSpace(l[0]))
    requires forall i :: 0 <= i < |s| - |l| ==> IsSpace(s[i])
    requires |r| <= |l| && r == l[..|r|] && (r == [] || !IsSpace(r[|r| - 1]))
    requires forall i :: |r| <= i < |l| ==> IsSpace(l[i])
    ensures TrimmedAt(s, |s| - |l|, r)
    ensures r == [] <==> forall i :: 0 <= i < |s| ==> IsSpace(s[i])
  {
    var k := |s| - |l|;
    SliceOfSuffix(s, k, |r|);
    forall i | k + |r| <= i < |s| ensures IsSpace(s[i]) {
      assert s[i] == l[i - k];
    }
    if r != [] {
      assert r[0] == l[0] == s[k];
    }
  }

  lemma SliceOfSuffix<T>(s: seq<T>, k: nat, n: nat)
    requires k + n <= |s|
    ensures s[k..][..n] == s[k..k + n]
  {
  }

  /** Trimming twice trims nothing more. */
  lemma TrimIdempotent(s: string)
    ensures Trim(Trim(s)) == Trim(s)
  {
    var t := Trim(s);
    if t != [] {
      assert TrimStart(t) == t;
      assert TrimEnd(t) == t;
    }
  }

  /**
   * `addService` / `addBarber` on a list and its input field: a non-blank entry not yet listed is
   * appended trimmed and the field cleared; anything else leaves both as they were.
   */
  function AddEntry(list: seq<string>, input: string): (r: (seq<string>, string))
    ensures Trim(input) != "" && Trim(input) !in list ==> r == (list + [Trim(input)], "")
    ensures Trim(input) == "" || Trim(input) in list ==> r == (list, input)
    ensures NoDuplicates(list) ==> NoDuplicates(r.0)
    ensures forall x :: x in r.0 ==> x in list || x == Trim(input)
  {
    var t := Trim(input);
    if t != "" && t !in list then
      AppendFresh(list, t);
      (list + [t], "")
    else (list, input)
  }

  /** Adding the same input twice adds it at most once. */
  lemma AddEntryTwice(list: seq<string>, input: string)
    ensures AddEntry(AddEntry(list, input).0, input).0 == AddEntry(list, input).0
  {
  }

  /** The patch `handleSaveProfile` sends: the three profile fields and nothing else. */
  function ProfilePatch(salonName: string, phone: string, address: string): UserPatch {
    UserPatch(None, None, None, Some(salonName), Some(phone), Some(address), None, None, None, None)
  }

  /**
   * Saving the profile sets the salon name, phone and address and keeps the account's identity,
   * avatar, join date and subscription as they were.
   */
  lemma SaveProfileTouchesOnlyProfile(u: User, salonName: string, phone: string, address: string)
    ensures var r := MergeUser(u, ProfilePatch(salonName, phone, address));
      r.salonName == salonName && r.phone == phone && r.address == address &&
      r == u.(salonName := salonName, phone := phone, address := address)
  {
  }

  class SettingsForm {
    var salonName: string
    var phone: string
    var address: string
    var services: seq<string>
    var barbers: seq<string>
    var newService: string
    var newBarber: string

    /** The form starts from the signed-in user's profile and the salon's lists, or blanks. */
    constructor (user: Option<User>, salon: Option<SalonStore.Salon>)
      ensures salonName == (if user.Some? then user.value.salonName else "")
      ensures phone == (if user.Some? then user.value.phone else "")
      ensures address == (if user.Some? then user.value.address else "")
      ensures services == (if salon.Some? then salon.value.services else [])
      ensures barbers == (if salon.Some? then salon.value.barbers else [])
      ensures newService == "" && newBarber == ""
    {
      salonName := if user.Some? then user.value.salonName else "";
      phone := if user.Some? then user.value.phone else "";
      address := if user.Some? then user.value.address else "";
      services := if salon.Some? then salon.value.services else [];
      barbers := if salon.Some? then salon.value.barbers else [];
      newService, newBarber := "", "";
    }

    /** The plain input handlers of the profile fields and of the two "add" inputs. */
    method SetSalonName(text: string)
      modifies this`salonName
      ensures salonName == text
    {
      salonName := text;
    }

    method SetPhone(text: string)
      modifies this`phone
      ensures phone == text
    {
      phone := text;
    }

    method SetAddress(text: string)
      modifies this`address
      ensures address == text
    {
      address := text;
    }

    method SetNewService(text: string)
      modifies this`newService
      ensures newService == text
    {
      newService := text;
    }

    method SetNewBarber(text: string)
      modifies this`newBarber
      ensures newBarber == text
    {
      newBarber := text;
    }

    method AddService()
      modifies this`services, this`newService
      ensures (services, newService) == AddEntry(old(services), old(newService))
      ensures NoDuplicates(old(services)) ==> NoDuplicates(services)
    {
      services, newService := AddEntry(services, newService).0, AddEntry(services, newService).1;
    }

    /** `removeService`: drops every entry equal to `service` (see `WithoutIsFilter`). */
    method RemoveService(service: string)
      modifies this`services
      ensures services == Without(old(services), service)
    {
      services := Without(services, service);
    }

    method AddBarber()
      modifies this`barbers, this`newBarber
      ensures (barbers, newBarber) == AddEntry(old(barbers), old(newBarber))
      ensures NoDuplicates(old(barbers)) ==> NoDuplicates(barbers)
    {
      barbers, newBarber := AddEntry(barbers, newBarber).0, AddEntry(barbers, newBarber).1;
    }

    method RemoveBarber(barber: string)
      modifies this`barbers
      ensures barbers == Without(old(barbers), barber)
    {
      barbers := Without(barbers, barber);
    }

    /**
     * `handleSaveProfile`: merge the edited profile fields into the signed-in user (a new user
     * object); without a user nothing happens. The edited lists are not sent anywhere.
     */
    method HandleSaveProfile(session: Session)
      modifies session`user
      ensures session.user ==
                if old(session.user).Some? then Some(MergeUser(old(session.user).value, ProfilePatch(salonName, phone, address)))
                else None
    {
      session.UpdateProfile(ProfilePatch(salonName, phone, address));
    }

    /**
     * Saving, followed by the salon provider's reaction to the new user object: its load effect
     * depends on `user`, so it runs again. The salon takes the edited name, phone and address
     * but the default services and barbers, and the customers and visits go back to the seed
     * lists, dropping every customer and visit recorded since sign-in. Without a user there is
     * no new user object and the store is left alone.
     */
    method HandleSaveProfileAndReload(session: Session, store: SalonStore.Store)
      modifies session`user, store
      ensures session.user ==
                if old(session.user).Some? then Some(MergeUser(old(session.user).value, ProfilePatch(salonName, phone, address)))
                else None
      ensures old(session.user).Some? ==>
        store.salon == Some(SalonStore.SalonFor(old(session.user).value).(name := salonName, phone := phone, address := address)) &&
        store.customers == SalonStore.SeedCustomers() && store.visits == SalonStore.SeedVisits() && !store.isLoading
      ensures old(session.user).Some? ==>
        store.salon.value.services == SalonStore.DefaultServices && store.salon.value.barbers == SalonStore.DefaultBarbers
      ensures old(session.user).None? ==> unchanged(store)
    {
      HandleSaveProfile(session);
      if session.user.Some? {
        store.Load(session.user);
      }
    }
  }
}
