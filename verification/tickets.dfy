/**
 * Citizen tickets: the public photo path shown for a stored upload, the
 * accepted photo types, who may see a ticket, and follow-ups appended to
 * its description. Errors are HTTP status codes; clocks come in as text.
 */
module Tickets {
  import opened Wrappers
  import opened Text

  /** `s.split("/")`. */
  function Split(s: string): (parts: seq<string>)
    ensures parts != []
    ensures forall i :: 0 <= i < |parts| ==> '/' !in parts[i] && forall c :: c in parts[i] ==> c in s
    decreases |s|
  {
    var i := Find(s, "/");
    if i == -1 then
      assert forall j :: 0 <= j < |s| ==> !OccursAt(s, "/", j) && s[j..j + 1] == [s[j]];
      [s]
    else
      assert s[i..i + 1] == "/";
      var rest := Split(s[i + 1..]);
      assert forall c :: c in s[..i] ==> c in s;
      assert forall j :: 0 <= j < i ==> !OccursAt(s, "/", j) && s[j..j + 1] == [s[j]];
      [s[..i]] + rest
  }

  /** The last path component that is neither empty nor ".", as `pathlib` parses a POSIX path; "" when there is none. */
  function LastName(parts: seq<string>): (n: string)
    ensures n == "" || n in parts
  {
    if parts == [] then ""
    else if parts[|parts| - 1] != "" && parts[|parts| - 1] != "." then parts[|parts| - 1]
    else LastName(parts[..|parts| - 1])
  }

  /** `Path(s).name`. */
  function BaseName(s: string): (n: string)
    ensures '/' !in n && forall c :: c in n ==> c in s
  {
    LastName(Split(s))
  }

  /** `_public_photo_path`: a web path under "data/" for a stored photo path. */
  function PublicPhotoPath(filename: string): string {
    var f := ReplaceChar(filename, '\\', '/');
    if StartsWith(f, "data/") then f
    else
      var idx := Find(f, "data/uploads");
      if idx != -1 then f[idx..] else "data/uploads/" + BaseName(f)
  }

  /**
   * The public path always starts with "data/" and holds no backslash; a
   * path already under "data/" (after turning backslashes into slashes)
   * is kept, one containing "data/uploads" is cut to start at its first
   * occurrence, and any other becomes "data/uploads/" and its file name.
   */
  lemma PublicPhotoPathMeaning(filename: string)
    ensures var f := ReplaceChar(filename, '\\', '/');
      var r := PublicPhotoPath(filename);
      StartsWith(r, "data/") && '\\' !in r &&
      (StartsWith(f, "data/") ==> r == f) &&
      (!StartsWith(f, "data/") && Find(f, "data/uploads") != -1 ==> r == f[Find(f, "data/uploads")..]) &&
      (!StartsWith(f, "data/") && Find(f, "data/uploads") == -1 ==> r == "data/uploads/" + BaseName(f))
  {
    var f := ReplaceChar(filename, '\\', '/');
    assert '\\' !in f by {
      forall i | 0 <= i < |f| ensures f[i] != '\\' {
      }
    }
    var r := PublicPhotoPath(filename);
    if !StartsWith(f, "data/") {
      var idx := Find(f, "data/uploads");
      if idx != -1 {
        assert f[idx..][..5] == f[idx..idx + 12][..5];
        assert forall c :: c in f[idx..] ==> c in f;
      } else {
        assert r[..5] == "data/";
        assert forall c :: c in BaseName(f) ==> c in f;
      }
    }
  }

  /** Exposing an exposed path again changes nothing. */
  lemma PublicPhotoPathIdempotent(filename: string)
    ensures PublicPhotoPath(PublicPhotoPath(filename)) == PublicPhotoPath(filename)
  {
    var r := PublicPhotoPath(filename);
    PublicPhotoPathMeaning(filename);
    assert ReplaceChar(r, '\\', '/') == r;
  }

  /** `file.filename.lower().endswith((".png", ".jpg", ".jpeg"))`. */
  predicate AllowedPhoto(name: string) {
    var l := Lower(name);
    EndsWith(l, ".png") || EndsWith(l, ".jpg") || EndsWith(l, ".jpeg")
  }

  /** The photo check ignores letter case. */
  lemma AllowedPhotoCaseless(name: string)
    ensures AllowedPhoto(Lower(name)) == AllowedPhoto(name)
  {
    LowerIdempotent(name);
  }

  /** A citizen may see or follow up only their own tickets; other roles see all. */
  predicate MayAccess(role: string, userId: string, ownerId: string) {
    !(role == "Citizen" && ownerId != userId)
  }

  class Ticket {
    var userId: string
    var subject: string
    var description: string
    var photoPath: Option<string>
    var status: string

    /** `submit_ticket`'s new ticket, with the stored upload's path if there was one. */
    constructor (userId: string, subject: string, description: string, photoPath: Option<string>)
      ensures this.userId == userId && this.subject == subject && this.description == description
      ensures this.photoPath == photoPath && status == "New"
    {
      this.userId := userId;
      this.subject := subject;
      this.description := description;
      this.photoPath := photoPath;
      status := "New";
    }
  }

  /** The stored path of a photo upload: `data/uploads/<prefix>_<stamp>_<file name>`. */
  function StoredPath(prefix: string, stamp: string, fileName: string): string {
    "data/uploads/" + prefix + "_" + stamp + "_" + fileName
  }

  /** `submit_ticket`: a non-image upload is 400; otherwise a "New" ticket owned by the caller. */
  method SubmitTicket(userId: string, subject: string, description: string, file: Option<string>, stamp: string)
    returns (r: Result<Ticket, int>)
    ensures file.Some? && !AllowedPhoto(file.value) ==> r == Err(400)
    ensures r.Ok? ==> (fresh(r.value) && r.value.userId == userId && r.value.status == "New" &&
      r.value.description == description && r.value.subject == subject &&
      r.value.photoPath == (if file.Some? then Some(StoredPath("ticket", stamp, file.value)) else None))
    ensures (file.None? || AllowedPhoto(file.value)) ==> r.Ok?
  {
    var photo: Option<string> := None;
    if file.Some? {
      if !AllowedPhoto(file.value) {
        return Err(400);
      }
      photo := Some(StoredPath("ticket", stamp, file.value));
    }
    var t := new Ticket(userId, subject, description, photo);
    r := Ok(t);
  }

  /** The text a follow-up appends to the description. */
  function FollowUpText(stamp: string, email: string, note: string): string {
    "\n\n[Follow-up " + stamp + " - " + email + "]: " + note
  }

  /** `track_ticket`'s access check: 404 for a missing ticket, 403 for another citizen's. */
  function AccessCheck(found: bool, role: string, userId: string, ownerId: string): Result<(), int> {
    if !found then Err(404) else if !MayAccess(role, userId, ownerId) then Err(403) else Ok(())
  }

  /**
   * `add_followup`: 404, 403 for another citizen's ticket, 400 for a
   * non-image upload; otherwise the note is appended to the description,
   * which keeps everything it held.
   */
  method AddFollowUp(t: Ticket?, role: string, userId: string, email: string, note: string, file: Option<string>, stamp: string)
    returns (r: Result<(), int>)
    modifies t
    ensures t == null ==> r == Err(404)
    ensures t != null && !MayAccess(role, userId, t.userId) ==> r == Err(403)
    ensures t != null && MayAccess(role, userId, t.userId) && file.Some? && !AllowedPhoto(file.value) ==> r == Err(400)
    ensures t != null && r.Err? ==> t.description == old(t.description)
    ensures t != null && MayAccess(role, userId, t.userId) && (file.None? || AllowedPhoto(file.value)) ==> r.Ok?
    ensures t != null && r.Ok? ==> (MayAccess(role, userId, t.userId) && (file.None? || AllowedPhoto(file.value)) &&
      t.description == old(t.description) + FollowUpText(stamp, email, note))
    ensures t != null ==> t.userId == old(t.userId) && t.status == old(t.status) && t.photoPath == old(t.photoPath)
  {
    if t == null {
      return Err(404);
    }
    if !MayAccess(role, userId, t.userId) {
      return Err(403);
    }
    if file.Some? && !AllowedPhoto(file.value) {
      return Err(400);
    }
    t.description := t.description + FollowUpText(stamp, email, note);
    r := Ok(());
  }

  /** A follow-up only extends the description: the old text is a prefix of the new. */
  lemma FollowUpKeepsDescription(description: string, stamp: string, email: string, note: string)
    ensures var d := description + FollowUpText(stamp, email, note);
      |d| > |description| && d[..|description|] == description
  {
    var d := description + FollowUpText(stamp, email, note);
    assert d[..|description|] == description;
  }
}
