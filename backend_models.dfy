/**
 * The user model and its manager (backend/accounts/models.py).
 *
 * The users table is a map from primary key to row with two unique
 * columns, `email` and `username` (a null username clashes with nothing);
 * an insert takes the next key of the sequence. Password hashing is not
 * modelled: a row keeps the raw password it was set to, `None` standing
 * for an unusable one. Only the fields this model declares are kept;
 * the other fields `AbstractUser` brings are not part of this model.
 */
module Models {
  import opened Common
  import opened Text

  /** Lines 47-50. */
  const RoleChoices: seq<(string, string)> := [("HOST", "Host/Interviewer"), ("CANDIDATE", "Candidate/Interviewee")]
  /** Line 61. */
  const DefaultRole := "CANDIDATE"

  predicate IsRoleChoice(role: string) {
    exists i :: 0 <= i < |RoleChoices| && RoleChoices[i].0 == role
  }

  /** The stored role is HOST or CANDIDATE, and the default is one of them. */
  lemma RoleChoicesAreHostAndCandidate(role: string)
    ensures IsRoleChoice(role) <==> role == "HOST" || role == "CANDIDATE"
    ensures IsRoleChoice(DefaultRole)
  {
    assert RoleChoices[0].0 == "HOST" && RoleChoices[1].0 == "CANDIDATE";
  }

  /** A keyword argument's value: a string, a boolean or `None`. */
  datatype Value = Str(text: string) | Bool(flag: bool) | Null

  /** `email.split('@')[0]`: the email up to its first `@`. */
  function LocalPart(email: string): (p: string)
    ensures p == BeforeChar(email, '@')
    ensures p <= email && '@' !in p
  {
    SplitFirstPart(email, '@');
    Split(email, "@")[0]
  }

  /** `str(self.id or '')`: the decimal id, or nothing when there is no id or it is 0. */
  function IdSuffix(id: Option<nat>): (s: string)
    ensures s == "" <==> id.None? || id.value == 0
    ensures forall i :: 0 <= i < |s| ==> '0' <= s[i] <= '9'
    ensures s != "" ==> DecimalValue(s) == id.value
  {
    if id.None? || id.value == 0 then ""
    else
      NatToStringValue(id.value);
      NatToString(id.value)
  }

  /**
   * Lines 86-87: a username that is set is kept; an empty one becomes the
   * local part of the email followed by the instance's id at that moment.
   */
  function FilledUsername(username: Option<string>, email: string, id: Option<nat>): (u: string)
    ensures username.Some? && username.value != "" ==> u == username.value
    ensures username.None? || username.value == "" ==> LocalPart(email) <= u && u[|LocalPart(email)|..] == IdSuffix(id)
    ensures (username.None? || username.value == "") && (id.None? || id.value == 0) ==> u == LocalPart(email)
  {
    if username.Some? && username.value != "" then username.value else LocalPart(email) + IdSuffix(id)
  }

  /** A row of the users table, without its primary key. */
  datatype UserRecord = UserRecord(
    username: Option<string>,
    email: string,
    fullName: string,
    phone: Option<string>,
    role: string,
    avatar: Option<string>,
    isStaff: bool,
    isSuperuser: bool,
    isActive: bool,
    password: Option<string>)

  /** Lines 53 and 56: two rows clash when they share the email or a non-null username. */
  predicate Clash(a: UserRecord, b: UserRecord) {
    a.email == b.email || (a.username.Some? && a.username == b.username)
  }

  /** The table as the database keeps it: keys below the sequence's next value, and no two rows clashing. */
  ghost predicate Valid(rows: map<nat, UserRecord>, nextId: nat) {
    && nextId >= 1
    && (forall k :: k in rows ==> 1 <= k < nextId)
    && (forall a, b :: a in rows && b in rows && a != b ==> !Clash(rows[a], rows[b]))
  }

  /** Whether writing `rec` under key `id` would break a unique column. */
  predicate ClashesWithOther(rows: map<nat, UserRecord>, id: nat, rec: UserRecord) {
    exists k | k in rows :: k != id && Clash(rows[k], rec)
  }

  datatype WriteResult = Saved(id: nat, rows: map<nat, UserRecord>, nextId: nat) | IntegrityError

  /**
   * The database write of `super().save()` (line 88): an instance without
   * a key is inserted under the sequence's next value, one with a key
   * replaces that row; either is refused when another row holds the same
   * email or username.
   */
  function WriteRow(rows: map<nat, UserRecord>, nextId: nat, id: Option<nat>, rec: UserRecord): (r: WriteResult)
    ensures r.IntegrityError? <==> ClashesWithOther(rows, if id.Some? then id.value else nextId, rec)
    ensures r.Saved? ==> (id.Some? ==> r.id == id.value) && (id.None? ==> r.id == nextId)
    ensures r.Saved? ==> r.id in r.rows && r.rows[r.id] == rec && forall k :: k in rows && k != r.id ==> k in r.rows && r.rows[k] == rows[k]
  {
    var key := if id.Some? then id.value else nextId;
    if ClashesWithOther(rows, key, rec) then IntegrityError
    else Saved(key, rows[key := rec], if key >= nextId then key + 1 else nextId)
  }

  /** A write that goes through keeps the table valid. */
  lemma WriteKeepsValid(rows: map<nat, UserRecord>, nextId: nat, id: Option<nat>, rec: UserRecord)
    requires Valid(rows, nextId) && (id.Some? ==> id.value >= 1)
    ensures WriteRow(rows, nextId, id, rec).Saved? ==> Valid(WriteRow(rows, nextId, id, rec).rows, WriteRow(rows, nextId, id, rec).nextId)
  {
    var r := WriteRow(rows, nextId, id, rec);
    if r.Saved? {
      forall a, b | a in r.rows && b in r.rows && a != b
        ensures !Clash(r.rows[a], r.rows[b])
      {
        if a == r.id {
          assert !Clash(rows[b], rec);
        } else if b == r.id {
          assert !Clash(rows[a], rec);
        }
      }
    }
  }

  function TextField(extra: map<string, Value>, key: string, default: string): string {
    if key in extra && extra[key].Str? then extra[key].text else default
  }

  function OptionalText(extra: map<string, Value>, key: string): Option<string> {
    if key in extra && extra[key].Str? then Some(extra[key].text) else None
  }

  function FlagField(extra: map<string, Value>, key: string, default: bool): bool {
    if key in extra && extra[key].Bool? then extra[key].flag else default
  }

  /**
   * `self.model(email=email, **extra_fields)`: each modelled field takes
   * the value given for it or the model's default (lines 53-62 and the
   * `AbstractUser` flags: not staff, not superuser, active); no password yet.
   */
  function Build(email: string, extra: map<string, Value>): (rec: UserRecord)
    ensures rec.email == email && rec.password.None?
    ensures rec.username.Some? <==> "username" in extra && extra["username"].Str?
    ensures rec.username.Some? ==> rec.username.value == extra["username"].text
    ensures rec.fullName == (if "full_name" in extra && extra["full_name"].Str? then extra["full_name"].text else "")
    ensures rec.phone == (if "phone" in extra && extra["phone"].Str? then Some(extra["phone"].text) else None)
    ensures rec.avatar == (if "avatar" in extra && extra["avatar"].Str? then Some(extra["avatar"].text) else None)
    ensures rec.role == (if "role" in extra && extra["role"].Str? then extra["role"].text else DefaultRole)
    ensures rec.isStaff <==> "is_staff" in extra && extra["is_staff"] == Bool(true)
    ensures rec.isSuperuser <==> "is_superuser" in extra && extra["is_superuser"] == Bool(true)
    ensures rec.isActive <==> !("is_active" in extra && extra["is_active"] == Bool(false))
  {
    UserRecord(
      OptionalText(extra, "username"),
      email,
      TextField(extra, "full_name", ""),
      OptionalText(extra, "phone"),
      TextField(extra, "role", DefaultRole),
      OptionalText(extra, "avatar"),
      FlagField(extra, "is_staff", false),
      FlagField(extra, "is_superuser", false),
      FlagField(extra, "is_active", true),
      None)
  }

  const EmailRequired := "The Email field must be set"
  const StaffRequired := "Superuser must have is_staff=True."
  const SuperuserRequired := "Superuser must have is_superuser=True."
  const UniqueViolation := "IntegrityError"

  /** A user that was created: its key, its row, and the table after the insert. */
  datatype Created = Created(id: nat, user: UserRecord, rows: map<nat, UserRecord>, nextId: nat)

  /**
   * Lines 8-22 as written: no email is refused; a given username is
   * dropped; and since the instance has no id yet when `save` fills the
   * username, every user it creates is named by the local part of the email
   * alone.
   */
  function NewUser(rows: map<nat, UserRecord>, nextId: nat, email: string, password: Option<string>, extra: map<string, Value>)
    : (r: Outcome<Created, string>)
    ensures email == "" ==> r == Err(EmailRequired)
    ensures r.Ok? ==> r.value.user.username == Some(LocalPart(email))
    ensures r.Ok? ==> r.value.user.email == email && r.value.user.password == password
    ensures r.Ok? ==> r.value.id == nextId && r.value.rows == rows[nextId := r.value.user]
    ensures r.Err? && email != "" ==> r.error == UniqueViolation
  {
    if email == "" then Err(EmailRequired)
    else
      var built := Build(email, extra - {"username"}).(password := password);
      var user := built.(username := Some(FilledUsername(built.username, email, None)));
      match WriteRow(rows, nextId, None, user)
      case IntegrityError => Err(UniqueViolation)
      case Saved(id, after, next) => Ok(Created(id, user, after, next))
  }

  /**
   * The defect of lines 86-87: once one user exists, any other email with
   * the same local part can no longer be registered, since its username
   * would repeat the first one's.
   */
  lemma {:induction false} SameLocalPartCollides(
    rows: map<nat, UserRecord>, nextId: nat, first: string, second: string,
    p1: Option<string>, p2: Option<string>, x1: map<string, Value>, x2: map<string, Value>)
    requires NewUser(rows, nextId, first, p1, x1).Ok?
    requires second != "" && LocalPart(second) == LocalPart(first)
    ensures NewUser(NewUser(rows, nextId, first, p1, x1).value.rows, NewUser(rows, nextId, first, p1, x1).value.nextId, second, p2, x2)
              == Err(UniqueViolation)
  {
    var c := NewUser(rows, nextId, first, p1, x1).value;
    var built := Build(second, x2 - {"username"}).(password := p2);
    var user := built.(username := Some(FilledUsername(built.username, second, None)));
    assert user.username == Some(LocalPart(second));
    assert c.id in c.rows && c.id != c.nextId && Clash(c.rows[c.id], user);
  }

  /** The local part of `p@rest`, for `p` without `@`, is `p`. */
  lemma {:induction false} LocalPartOf(p: string, rest: string)
    requires '@' !in p
    ensures LocalPart(p + "@" + rest) == p
  {
    SplitAfterPrefix(p, '@', rest);
    assert p + "@" + rest == p + ['@'] + rest;
  }

  /**
   * The input that shows it: with an empty table, `p@d1` registers and then
   * `p@d2` cannot, for any local part `p` and any two domains.
   */
  lemma {:induction false} SameNameOtherDomainCollides(p: string, d1: string, d2: string)
    requires '@' !in p && d1 != d2
    ensures NewUser(map[], 1, p + "@" + d1, None, map[]).Ok?
    ensures NewUser(NewUser(map[], 1, p + "@" + d1, None, map[]).value.rows, 2, p + "@" + d2, None, map[]) == Err(UniqueViolation)
  {
    LocalPartOf(p, d1);
    LocalPartOf(p, d2);
    var first := p + "@" + d1;
    var user := Build(first, map[] - {"username"}).(password := None);
    var named := user.(username := Some(FilledUsername(user.username, first, None)));
    assert !ClashesWithOther(map[], 1, named);
    SameLocalPartCollides(map[], 1, first, p + "@" + d2, None, None, map[], map[]);
  }

  /** The separator between the local part and the id in a generated username. */
  const UsernameSeparator := '_'

  /** The username the corrected `save` gives a user without one: local part, separator, key. */
  function GeneratedUsername(email: string, id: nat): (u: string)
    ensures LocalPart(email) <= u
    ensures UsernameSeparator !in NatToString(id)
  {
    var digits := NatToString(id);
    assert forall i :: 0 <= i < |digits| ==> digits[i] != UsernameSeparator;
    LocalPart(email) + [UsernameSeparator] + digits
  }

  /** The position of the last `c` in `s`, or -1. */
  function LastIndex(s: string, c: char): int
    decreases |s|
  {
    if s == [] then -1
    else if s[|s| - 1] == c then |s| - 1
    else LastIndex(s[..|s| - 1], c)
  }

  lemma {:induction false} LastIndexAfter(a: string, c: char, x: string)
    requires c !in x
    ensures LastIndex(a + [c] + x, c) == |a|
    decreases |x|
  {
    var s := a + [c] + x;
    if x != [] {
      assert s[..|s| - 1] == a + [c] + x[..|x| - 1];
      assert s[|s| - 1] == x[|x| - 1];
      LastIndexAfter(a, c, x[..|x| - 1]);
    }
  }

  /** What follows the last occurrence of a character is determined by the string. */
  lemma {:induction false} SuffixAfterLast(a: string, x: string, b: string, y: string, c: char)
    requires a + [c] + x == b + [c] + y
    requires c !in x && c !in y
    ensures x == y
  {
    var s := a + [c] + x;
    LastIndexAfter(a, c, x);
    LastIndexAfter(b, c, y);
    assert x == s[|a| + 1..];
    assert y == (b + [c] + y)[|b| + 1..];
  }

  /** Different keys always give different generated usernames, whatever the emails. */
  lemma {:induction false} GeneratedUsernamesDiffer(e1: string, id1: nat, e2: string, id2: nat)
    requires id1 != id2
    ensures GeneratedUsername(e1, id1) != GeneratedUsername(e2, id2)
  {
    if GeneratedUsername(e1, id1) == GeneratedUsername(e2, id2) {
      SuffixAfterLast(LocalPart(e1), NatToString(id1), LocalPart(e2), NatToString(id2), UsernameSeparator);
      NatToStringValue(id1);
      NatToStringValue(id2);
      assert false;
    }
  }

  /**
   * The corrected creation: the username is filled in with the key the
   * insert assigns, so it is unique whenever the keys are.
   */
  function NewUserFixed(rows: map<nat, UserRecord>, nextId: nat, email: string, password: Option<string>, extra: map<string, Value>)
    : (r: Outcome<Created, string>)
    ensures email == "" ==> r == Err(EmailRequired)
    ensures r.Ok? ==> r.value.user.username == Some(GeneratedUsername(email, nextId))
    ensures r.Ok? ==> r.value.user.email == email && r.value.user.password == password
    ensures r.Ok? ==> r.value.id == nextId && r.value.rows == rows[nextId := r.value.user]
  {
    if email == "" then Err(EmailRequired)
    else
      var user := Build(email, extra - {"username"}).(password := password, username := Some(GeneratedUsername(email, nextId)));
      match WriteRow(rows, nextId, None, user)
      case IntegrityError => Err(UniqueViolation)
      case Saved(id, after, next) => Ok(Created(id, user, after, next))
  }

  /**
   * Which rule names a new row that has no username: `save` as written
   * (lines 86-87, before the insert has given the instance an id) or the
   * corrected one (after it, from the key the insert assigns).
   */
  datatype Naming = AsWritten | Corrected

  /** The username a new row without one is written with, under either rule. */
  function InsertedUsername(naming: Naming, email: string, key: nat): (u: string)
    ensures naming.AsWritten? ==> u == LocalPart(email)
    ensures naming.Corrected? ==> u == GeneratedUsername(email, key)
  {
    match naming
    case AsWritten => FilledUsername(None, email, None)
    case Corrected => GeneratedUsername(email, key)
  }

  /** Every row has a username that is set and not empty, so `save` keeps it. */
  ghost predicate NamesSet(rows: map<nat, UserRecord>) {
    forall k :: k in rows ==> rows[k].username.Some? && rows[k].username.value != ""
  }

  /** Every row is named after its own email and key, as the corrected save names it. */
  ghost predicate NamesGenerated(rows: map<nat, UserRecord>) {
    forall k :: k in rows ==> rows[k].username == Some(GeneratedUsername(rows[k].email, k))
  }

  /**
   * The intended property: on a valid table whose usernames were all
   * generated, a new non-empty email is always accepted, and the table
   * stays valid with generated usernames.
   */
  lemma {:induction false} FixedCreateSucceeds(rows: map<nat, UserRecord>, nextId: nat, email: string, password: Option<string>, extra: map<string, Value>)
    requires Valid(rows, nextId) && NamesGenerated(rows)
    requires email != "" && forall k :: k in rows ==> rows[k].email != email
    ensures NewUserFixed(rows, nextId, email, password, extra).Ok?
    ensures Valid(NewUserFixed(rows, nextId, email, password, extra).value.rows, NewUserFixed(rows, nextId, email, password, extra).value.nextId)
    ensures NamesGenerated(NewUserFixed(rows, nextId, email, password, extra).value.rows)
  {
    var user := Build(email, extra - {"username"}).(password := password, username := Some(GeneratedUsername(email, nextId)));
    forall k | k in rows && k != nextId
      ensures !Clash(rows[k], user)
    {
      GeneratedUsernamesDiffer(rows[k].email, k, email, nextId);
    }
    assert !ClashesWithOther(rows, nextId, user);
    WriteKeepsValid(rows, nextId, None, user);
  }

  /** `extra_fields.setdefault(key, value)`. */
  function SetDefault(extra: map<string, Value>, key: string, value: Value): (r: map<string, Value>)
    ensures key in r && (key in extra ==> r[key] == extra[key]) && (key !in extra ==> r[key] == value)
    ensures forall k :: k != key ==> (k in r <==> k in extra) && (k in r ==> r[k] == extra[k])
  {
    if key in extra then extra else extra[key := value]
  }

  /**
   * Lines 26-37: the keyword arguments `create_superuser` hands on. The
   * three flags default to True; a staff or superuser flag given as
   * anything but True is refused, the staff flag first; a missing
   * full name becomes the email's local part; nothing given is changed.
   */
  function SuperuserFields(email: string, extra: map<string, Value>): (r: Outcome<map<string, Value>, string>)
    ensures r.Err? <==> ("is_staff" in extra && extra["is_staff"] != Bool(true)) || ("is_superuser" in extra && extra["is_superuser"] != Bool(true))
    ensures r.Err? ==> r.error == if "is_staff" in extra && extra["is_staff"] != Bool(true) then StaffRequired else SuperuserRequired
    ensures r.Ok? ==> "is_staff" in r.value && "is_superuser" in r.value && "is_active" in r.value && "full_name" in r.value
    ensures r.Ok? ==> r.value["is_staff"] == Bool(true) && r.value["is_superuser"] == Bool(true)
    ensures r.Ok? ==> r.value["is_active"] == if "is_active" in extra then extra["is_active"] else Bool(true)
    ensures r.Ok? ==> r.value["full_name"] == if "full_name" in extra then extra["full_name"] else Str(LocalPart(email))
    ensures r.Ok? ==> forall k :: k in extra ==> k in r.value && r.value[k] == extra[k]
  {
    var withStaff := SetDefault(extra, "is_staff", Bool(true));
    var withSuper := SetDefault(withStaff, "is_superuser", Bool(true));
    var fields := SetDefault(withSuper, "is_active", Bool(true));
    if fields["is_staff"] != Bool(true) then Err(StaffRequired)
    else if fields["is_superuser"] != Bool(true) then Err(SuperuserRequired)
    else if "full_name" in fields then Ok(fields)
    else Ok(fields["full_name" := Str(LocalPart(email))])
  }

  /** Lines 24-39: the superuser checks, then `create_user` with the completed fields. */
  function NewSuperuser(rows: map<nat, UserRecord>, nextId: nat, email: string, password: Option<string>, extra: map<string, Value>)
    : (r: Outcome<Created, string>)
    ensures SuperuserFields(email, extra).Err? ==> r == Err(SuperuserFields(email, extra).error)
    ensures SuperuserFields(email, extra).Ok? && email == "" ==> r == Err(EmailRequired)
    ensures r.Ok? ==> r.value.user.email == email && r.value.user.username == Some(LocalPart(email)) && r.value.id == nextId
  {
    match SuperuserFields(email, extra)
    case Err(message) => Err(message)
    case Ok(fields) => NewUser(rows, nextId, email, password, fields)
  }

  /**
   * A superuser is staff and superuser, active unless told otherwise, and
   * named after the local part of the email unless a full name was given.
   */
  lemma SuperuserFlags(rows: map<nat, UserRecord>, nextId: nat, email: string, password: Option<string>, extra: map<string, Value>)
    requires NewSuperuser(rows, nextId, email, password, extra).Ok?
    ensures NewSuperuser(rows, nextId, email, password, extra).value.user.isStaff
    ensures NewSuperuser(rows, nextId, email, password, extra).value.user.isSuperuser
    ensures NewSuperuser(rows, nextId, email, password, extra).value.user.isActive <==> !("is_active" in extra && extra["is_active"] == Bool(false))
    ensures "full_name" !in extra ==> NewSuperuser(rows, nextId, email, password, extra).value.user.fullName == LocalPart(email)
  {
  }

  /** The users table behind the manager. */
  class UserStore {
    var rows: map<nat, UserRecord>
    var nextId: nat

    constructor()
      ensures rows == map[] && nextId == 1 && Valid(rows, nextId)
    {
      rows := map[];
      nextId := 1;
    }

    /** The write of `super().save()`. */
    method Write(id: Option<nat>, rec: UserRecord) returns (key: Option<nat>)
      requires Valid(rows, nextId) && (id.Some? ==> id.value >= 1)
      modifies this
      ensures Valid(rows, nextId)
      ensures key.Some? <==> WriteRow(old(rows), old(nextId), id, rec).Saved?
      ensures key.Some? ==> key.value == WriteRow(old(rows), old(nextId), id, rec).id
      ensures key.Some? ==> rows == WriteRow(old(rows), old(nextId), id, rec).rows && nextId == WriteRow(old(rows), old(nextId), id, rec).nextId
      ensures key.None? ==> rows == old(rows) && nextId == old(nextId)
    {
      WriteKeepsValid(rows, nextId, id, rec);
      var target := if id.Some? then id.value else nextId;
      if ClashesWithOther(rows, target, rec) {
        key := None;
      } else {
        rows := rows[target := rec];
        if target >= nextId {
          nextId := target + 1;
        }
        key := Some(target);
      }
    }
  }

  /** A user instance in memory (line 42); `save` writes it to the table. */
  class CustomUser {
    var id: Option<nat>
    var username: Option<string>
    var email: string
    var fullName: string
    var phone: Option<string>
    var role: string
    var avatar: Option<string>
    var isStaff: bool
    var isSuperuser: bool
    var isActive: bool
    var password: Option<string>

    function Record(): UserRecord
      reads this
    {
      UserRecord(username, email, fullName, phone, role, avatar, isStaff, isSuperuser, isActive, password)
    }

    /** `self.model(email=email, **extra_fields)`: not saved yet, so no id. */
    constructor(email: string, extra: map<string, Value>)
      ensures id.None? && Record() == Build(email, extra)
    {
      var rec := Build(email, extra);
      id := None;
      username := rec.username;
      this.email := email;
      fullName := rec.fullName;
      phone := rec.phone;
      role := rec.role;
      avatar := rec.avatar;
      isStaff := rec.isStaff;
      isSuperuser := rec.isSuperuser;
      isActive := rec.isActive;
      password := None;
    }

    /** `set_password(raw)`: only the password changes. */
    method SetPassword(raw: Option<string>)
      modifies this
      ensures Record() == old(Record()).(password := raw) && id == old(id)
    {
      password := raw;
    }

    /** Lines 84-88 as written: fill an empty username with the id the instance has now, then write. */
    method Save(store: UserStore) returns (saved: bool)
      requires Valid(store.rows, store.nextId) && (id.Some? ==> id.value >= 1)
      modifies this, store
      ensures Valid(store.rows, store.nextId)
      ensures Record() == old(Record()).(username := Some(FilledUsername(old(username), old(email), old(id))))
      ensures saved <==> WriteRow(old(store.rows), old(store.nextId), old(id), Record()).Saved?
      ensures saved ==> id == Some(WriteRow(old(store.rows), old(store.nextId), old(id), Record()).id)
      ensures saved ==> store.rows == WriteRow(old(store.rows), old(store.nextId), old(id), Record()).rows
      ensures saved ==> store.nextId == WriteRow(old(store.rows), old(store.nextId), old(id), Record()).nextId
      ensures !saved ==> id == old(id) && store.rows == old(store.rows) && store.nextId == old(store.nextId)
    {
      if username.None? || username.value == "" {
        username := Some(LocalPart(email) + IdSuffix(id));
      }
      var key := store.Write(id, Record());
      saved := key.Some?;
      if saved {
        id := key;
      }
    }
  }

  /** The manager (lines 5-39), over one users table. */
  class CustomUserManager {
    const store: UserStore

    constructor(store: UserStore)
      ensures this.store == store
    {
      this.store := store;
    }

    /** Lines 8-22. */
    method CreateUser(email: string, password: Option<string>, extraFields: map<string, Value>) returns (r: Outcome<CustomUser, string>)
      requires Valid(store.rows, store.nextId)
      modifies store
      ensures Valid(store.rows, store.nextId)
      ensures r.Ok? <==> NewUser(old(store.rows), old(store.nextId), email, password, extraFields).Ok?
      ensures r.Err? ==> r.error == NewUser(old(store.rows), old(store.nextId), email, password, extraFields).error
      ensures r.Err? ==> store.rows == old(store.rows) && store.nextId == old(store.nextId)
      ensures r.Ok? ==> fresh(r.value)
      ensures r.Ok? ==> r.value.id == Some(NewUser(old(store.rows), old(store.nextId), email, password, extraFields).value.id)
      ensures r.Ok? ==> r.value.Record() == NewUser(old(store.rows), old(store.nextId), email, password, extraFields).value.user
      ensures r.Ok? ==> store.rows == NewUser(old(store.rows), old(store.nextId), email, password, extraFields).value.rows
      ensures r.Ok? ==> store.nextId == NewUser(old(store.rows), old(store.nextId), email, password, extraFields).value.nextId
    {
      if email == "" {
        return Err(EmailRequired);
      }
      var extra := extraFields - {"username"};
      var user := new CustomUser(email, extra);
      user.SetPassword(password);
      var saved := user.Save(store);
      if saved {
        r := Ok(user);
      } else {
        r := Err(UniqueViolation);
      }
    }

    /** Lines 24-39. */
    method CreateSuperuser(email: string, password: Option<string>, extraFields: map<string, Value>) returns (r: Outcome<CustomUser, string>)
      requires Valid(store.rows, store.nextId)
      modifies store
      ensures Valid(store.rows, store.nextId)
      ensures r.Ok? <==> NewSuperuser(old(store.rows), old(store.nextId), email, password, extraFields).Ok?
      ensures r.Err? ==> r.error == NewSuperuser(old(store.rows), old(store.nextId), email, password, extraFields).error
      ensures r.Err? ==> store.rows == old(store.rows) && store.nextId == old(store.nextId)
      ensures r.Ok? ==> fresh(r.value)
      ensures r.Ok? ==> r.value.Record() == NewSuperuser(old(store.rows), old(store.nextId), email, password, extraFields).value.user
      ensures r.Ok? ==> store.rows == NewSuperuser(old(store.rows), old(store.nextId), email, password, extraFields).value.rows
    {
      var extra := extraFields;
      extra := SetDefault(extra, "is_staff", Bool(true));
      extra := SetDefault(extra, "is_superuser", Bool(true));
      extra := SetDefault(extra, "is_active", Bool(true));
      if extra["is_staff"] != Bool(true) {
        return Err(StaffRequired);
      }
      if extra["is_superuser"] != Bool(true) {
        return Err(SuperuserRequired);
      }
      if "full_name" !in extra {
        extra := extra["full_name" := Str(LocalPart(email))];
      }
      r := CreateUser(email, password, extra);
    }
  }
}
