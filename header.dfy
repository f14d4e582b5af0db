/**
 * The header's user badge: the profile record built from a fetched user
 * document (with its display-name and phone fallbacks), the admin-then-users
 * lookup sequence, and the avatar initials.
 */
module Header {
  import opened Wrappers
  import opened JsText

  // ---------------------------------------------------------------------------
  // getInitials

  /** `n[0]` joined into a string: nothing for an empty piece. */
  function FirstChar(p: string): string
  {
    if p == "" then "" else [p[0]]
  }

  /** `pieces.map(n => n[0]).join('')`: the first character of every piece;
      an empty piece gives `undefined`, which `join` writes as nothing. */
  function FirstChars(pieces: seq<string>): (r: string)
    ensures |r| <= |pieces|
  {
    if pieces == [] then ""
    else FirstChar(pieces[0]) + FirstChars(pieces[1..])
  }

  /** The number of non-empty pieces. */
  function NonEmptyCount(pieces: seq<string>): nat
  {
    |set i | 0 <= i < |pieces| && pieces[i] != ""|
  }

  /** `getInitials(name)`: "A" for a missing or empty name, otherwise the
      upper-cased first character of every space-separated piece. */
  function GetInitials(name: Option<string>): (r: string)
    ensures !Truthy(name) ==> r == "A"
    ensures forall i :: 0 <= i < |r| ==> !IsLower(r[i])
  {
    if !Truthy(name) then "A" else ToUpper(FirstChars(Split(name.value, ' ')))
  }

  /** Reference definition: the characters of `s` that begin a word, i.e. a
      non-space character at the start (when `atStart`) or right after a space. */
  function WordStarts(s: string, atStart: bool): string
  {
    if s == [] then ""
    else (if s[0] != ' ' && atStart then [s[0]] else "") + WordStarts(s[1..], s[0] == ' ')
  }

  lemma FirstCharsCons(p: string, rest: seq<string>)
    ensures FirstChars([p] + rest) == FirstChar(p) + FirstChars(rest)
  {
    assert ([p] + rest)[1..] == rest;
  }

  /** Taking the first character of each piece of `s.split(' ')` picks exactly
      the word-starting characters of `s`; the pieces after the first pick
      those that follow a space. */
  lemma {:induction false} FirstCharsOfSplit(s: string)
    ensures FirstChars(Split(s, ' ')) == WordStarts(s, true)
    ensures FirstChars(Split(s, ' ')[1..]) == WordStarts(s, false)
    decreases |s|
  {
    if s == [] {
      assert Split(s, ' ')[1..] == [];
    } else {
      var rest := Split(s[1..], ' ');
      FirstCharsOfSplit(s[1..]);
      if s[0] == ' ' {
        FirstCharsCons("", rest);
        assert ([""] + rest)[1..] == rest;
      } else {
        var head := [s[0]] + rest[0];
        FirstCharsCons(head, rest[1..]);
        assert ([head] + rest[1..])[1..] == rest[1..];
        assert rest == [rest[0]] + rest[1..];
        FirstCharsCons(rest[0], rest[1..]);
      }
    }
  }

  /** The initials of a non-empty name are its upper-cased word starts. */
  lemma InitialsAreWordStarts(name: string)
    requires name != ""
    ensures GetInitials(Some(name)) == ToUpper(WordStarts(name, true))
  {
    FirstCharsOfSplit(name);
  }

  lemma {:induction false} FirstCharsAppend(pieces: seq<string>, last: string)
    ensures FirstChars(pieces + [last]) == FirstChars(pieces) + FirstChar(last)
  {
    if pieces == [] {
      assert [] + [last] == [last];
      assert [last][1..] == [];
    } else {
      assert (pieces + [last])[1..] == pieces[1..] + [last];
      FirstCharsAppend(pieces[1..], last);
    }
  }

  lemma NonEmptyCountAppend(pieces: seq<string>, last: string)
    ensures NonEmptyCount(pieces + [last]) == NonEmptyCount(pieces) + (if last == "" then 0 else 1)
  {
    var n := |pieces|;
    var before := set i | 0 <= i < n && pieces[i] != "";
    var after := set i | 0 <= i < n + 1 && (pieces + [last])[i] != "";
    assert n !in before;
    if last != "" {
      assert after == before + {n};
    } else {
      assert after == before;
    }
  }

  /** Each non-empty piece contributes exactly one character, an empty one none. */
  lemma {:induction false} FirstCharsLength(pieces: seq<string>)
    ensures |FirstChars(pieces)| == NonEmptyCount(pieces)
    decreases |pieces|
  {
    if pieces != [] {
      var init, last := pieces[..|pieces| - 1], pieces[|pieces| - 1];
      assert pieces == init + [last];
      FirstCharsLength(init);
      FirstCharsAppend(init, last);
      NonEmptyCountAppend(init, last);
    }
  }

  /** The initials of a non-empty name have one character per non-empty piece. */
  lemma InitialsLength(name: string)
    requires name != ""
    ensures |GetInitials(Some(name))| == NonEmptyCount(Split(name, ' '))
  {
    FirstCharsLength(Split(name, ' '));
  }

  lemma {:induction false} NoWordStartsInSpaces(s: string, atStart: bool)
    requires forall i :: 0 <= i < |s| ==> s[i] == ' '
    ensures WordStarts(s, atStart) == ""
  {
    if s != [] {
      NoWordStartsInSpaces(s[1..], true);
    }
  }

  /** A name made only of spaces is truthy but has no initials: the result is "", not "A". */
  lemma AllSpacesGiveNoInitials(name: string)
    requires name != ""
    requires forall i :: 0 <= i < |name| ==> name[i] == ' '
    ensures GetInitials(Some(name)) == ""
  {
    InitialsAreWordStarts(name);
    NoWordStartsInSpaces(name, true);
  }

  // ---------------------------------------------------------------------------
  // The profile shown in the header

  /** The fields of a stored `admin` or `users` document that the header reads. */
  datatype UserData = UserData(username: Option<string>, fullName: Option<string>, email: Option<string>, phone: Option<string>)
  datatype UserDoc = UserDoc(id: string, data: UserData)

  datatype Profile = Profile(id: string, fullName: Option<string>, email: Option<string>, phone: string)

  /** The profile set from a fetched document: the display name is `username`
      when that is truthy (administrators) and `fullName` otherwise; a missing
      or empty phone becomes ""; the email is copied as it is. */
  function ProfileOf(doc: UserDoc): (p: Profile)
    ensures p.id == doc.id && p.email == doc.data.email
    ensures Truthy(doc.data.username) ==> p.fullName == doc.data.username
    ensures !Truthy(doc.data.username) ==> p.fullName == doc.data.fullName
    ensures Truthy(doc.data.phone) ==> p.phone == doc.data.phone.value
    ensures !Truthy(doc.data.phone) ==> p.phone == ""
  {
    Profile(doc.id, Or(doc.data.username, doc.data.fullName), doc.data.email, Or(doc.data.phone, Some("")).value)
  }

  /** The avatar falls back to "A" exactly when neither a username nor a full name is set. */
  lemma AvatarFallback(doc: UserDoc)
    ensures Truthy(ProfileOf(doc).fullName) <==> Truthy(doc.data.username) || Truthy(doc.data.fullName)
    ensures !Truthy(doc.data.username) && !Truthy(doc.data.fullName) ==> GetInitials(ProfileOf(doc).fullName) == "A"
  {
  }

  /** The result of one `getDocs` query: the matching documents, or a thrown error. */
  datatype QueryResult = Snapshot(docs: seq<UserDoc>) | QueryFailed

  predicate IsEmptySnapshot(q: QueryResult)
  {
    q.Snapshot? && q.docs == []
  }

  /** The collections queried, in order: `users` is asked only when `admin` came back empty. */
  function CollectionsQueried(admin: QueryResult): (r: seq<string>)
    ensures |r| >= 1 && r[0] == "admin"
    ensures "users" in r <==> IsEmptySnapshot(admin)
  {
    if IsEmptySnapshot(admin) then ["admin", "users"] else ["admin"]
  }

  /** The user the lookup settles on: the first `admin` document if there is
      one, else the first `users` document; nothing if a query failed or both
      came back empty. */
  function FetchedProfile(admin: QueryResult, users: QueryResult): (r: Option<Profile>)
    ensures admin.Snapshot? && admin.docs != [] ==> r == Some(ProfileOf(admin.docs[0]))
    ensures IsEmptySnapshot(admin) && users.Snapshot? && users.docs != [] ==> r == Some(ProfileOf(users.docs[0]))
    ensures r.None? <==> admin.QueryFailed? || (IsEmptySnapshot(admin) && (users.QueryFailed? || IsEmptySnapshot(users)))
  {
    var q := if IsEmptySnapshot(admin) then users else admin;
    if q.Snapshot? && q.docs != [] then Some(ProfileOf(q.docs[0])) else None
  }

  /** The state of `UserProfileDisplay`. */
  class ProfileDisplay {
    var user: Option<Profile>
    var loading: bool

    constructor ()
      ensures user == None && loading
    {
      user := None;
      loading := true;
    }

    /** The mount effect `fetchUser`: `storedEmail` is what local storage holds,
        `admin` and `users` are what the two queries would return. Returns the
        collections actually queried. */
    method FetchUser(storedEmail: Option<string>, admin: QueryResult, users: QueryResult) returns (queried: seq<string>)
      modifies this
      ensures !loading
      ensures !Truthy(storedEmail) ==> queried == [] && user == old(user)
      ensures Truthy(storedEmail) ==> queried == CollectionsQueried(admin) && user == FetchedProfile(admin, users)
    {
      loading := true;
      if !Truthy(storedEmail) {
        loading := false;
        queried := [];
        return;
      }
      queried := ["admin"];
      var snapshot := admin;
      if snapshot.Snapshot? && snapshot.docs == [] {
        queried := queried + ["users"];
        snapshot := users;
      }
      match snapshot {
        case QueryFailed =>
          user := None;
        case Snapshot(docs) =>
          if docs != [] {
            user := Some(ProfileOf(docs[0]));
          } else {
            user := None;
          }
      }
      loading := false;
    }
  }
}
