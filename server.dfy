/** The two routes the server handles itself: the landing page `/` and the letter form `/submit`. */
module Server {
  import opened Wrappers
  import Decimal
  import opened Sessions
  import opened Http

  /** `GET /` on a session holding `store`: a user is logged in exactly when `profile` is set. */
  function Index(store: Store): (r: Outcome)
    ensures Lookup(store, "profile").None? <==> r == Redirect(StatusTemporaryRedirect, "/login")
    ensures r.Render? <==> "profile" in store
    ensures "profile" in store ==> r == Render(StatusOK, Page(store["profile"]))
  {
    var profile := Lookup(store, "profile");
    if profile.None? then Redirect(StatusTemporaryRedirect, "/login")
    else Render(StatusOK, Page(profile.value))
  }

  const Draft := "draft"
  const Final := "final"

  /** The file a letter of the given version submitted at `unix` seconds is written to. */
  function LetterPath(version: string, unix: int): (p: string)
    ensures |p| >= 18 + |version| && p[..8] == "letters/" && p[8..8 + |version|] == version
    ensures p[8 + |version|..13 + |version|] == "/mob_" && p[|p| - 4..] == ".txt"
  {
    "letters/" + version + "/mob_" + Decimal.Format(unix) + ".txt"
  }

  /** Reads the version and the time back from a letter's file name. */
  function ParseLetterPath(p: string): Option<(string, int)>
  {
    if |p| < 22 || p[..8] != "letters/" || p[8..13] !in {Draft, Final} || p[13..18] != "/mob_" || p[|p| - 4..] != ".txt"
    then None
    else
      match Decimal.Parse(p[18..|p| - 4])
      case None => None
      case Some(unix) => Some((p[8..13], unix))
  }

  /** A letter's file name gives back its version and its time. */
  lemma ParseLetterPathOf(version: string, unix: int)
    requires version in {Draft, Final}
    ensures ParseLetterPath(LetterPath(version, unix)) == Some((version, unix))
  {
    var n := Decimal.Format(unix);
    var p := LetterPath(version, unix);
    assert |n| >= 1;
    assert p[..8] == "letters/" && p[8..13] == version && p[13..18] == "/mob_";
    assert p[18..|p| - 4] == n && p[|p| - 4..] == ".txt";
    Decimal.ParseFormat(unix);
  }

  /** Two submissions share a file only when they have the same version and the same second. */
  lemma LetterPathInjective(v1: string, t1: int, v2: string, t2: int)
    requires v1 in {Draft, Final} && v2 in {Draft, Final}
    requires LetterPath(v1, t1) == LetterPath(v2, t2)
    ensures v1 == v2 && t1 == t2
  {
    ParseLetterPathOf(v1, t1);
    ParseLetterPathOf(v2, t2);
  }

  /** A file `/submit` writes. */
  datatype FileWrite = FileWrite(path: string, contents: string)

  /** `req.Form`: the body's form values first, then the URL's query values. */
  function FormValues(req: Request): (v: Values)
    ensures v.Keys == req.form.Keys + req.query.Keys
    ensures forall k :: All(v, k) == All(req.form, k) + All(req.query, k)
    ensures forall k :: First(v, k) == if |All(req.form, k)| > 0 then First(req.form, k) else First(req.query, k)
  {
    map k | k in req.form.Keys + req.query.Keys :: All(req.form, k) + All(req.query, k)
  }

  /** `ShouldBind` into `Form`: binding fails when the required `letter` field is absent or empty. */
  function BindLetter(req: Request): (r: Option<string>)
    ensures r.Some? <==> First(FormValues(req), "letter") != ""
    ensures r.Some? ==> r.value == First(FormValues(req), "letter")
  {
    var letter := First(FormValues(req), "letter");
    if letter == "" then None else Some(letter)
  }

  /**
   * `POST /submit` at `unix` seconds; `writeOk` is the outcome of
   * `ioutil.WriteFile`. Returns the response and the write it attempted.
   * The session is not consulted.
   */
  method Submit(req: Request, unix: int, writeOk: bool) returns (out: Outcome, attempted: Option<FileWrite>)
    ensures out == Redirect(StatusMovedPermanently, "/")
    ensures attempted.Some? <==> BindLetter(req).Some?
    ensures attempted.Some? ==>
              && attempted.value.contents == BindLetter(req).value
              && ParseLetterPath(attempted.value.path)
                 == Some((if First(req.form, "submit") == "Save Draft" then Draft else Final, unix))
  {
    var version := Final;
    if First(req.form, "submit") == "Save Draft" {
      version := Draft;
    }

    var letter := BindLetter(req);
    if letter.None? {
      out, attempted := Redirect(StatusMovedPermanently, "/"), None;
      return;
    }

    attempted := Some(FileWrite(LetterPath(version, unix), letter.value));
    ParseLetterPathOf(version, unix);
    if !writeOk {
      out := Redirect(StatusMovedPermanently, "/");
      return;
    }

    out := Redirect(StatusMovedPermanently, "/");
  }
}
