/**
 * The daily comic scraper (src/scraper.py): the page URL, file name and
 * save path built for each comic, the image lookup on the fetched page, and
 * the batch loop of `Scraper.run`, which tries every configured comic in
 * order and catches the failure of any one of them.
 *
 * The network, the HTML parser and the filesystem are not modelled: what they
 * answer is an input of type `Web`.
 */
module Scraper {
  import opened Wrappers
  import opened Strings

  /** GOCOMICS_BASE_URL. */
  const GoComicsBaseUrl: string := "https://www.gocomics.com"

  /** COMIC_IMG_XPATH: the structural query for the comic image. */
  const ComicImgXPath: string := ".//picture[@class=\"item-comic-image\"]/img"

  /** The message of the exception raised when the image query finds nothing. */
  const NoComicMessage: string :=
    "The xpath \"" + ComicImgXPath + "\" was incorrect or there currently is no comic for today."

  /** A calendar date, standing for `datetime.now()`. */
  datatype Date = Date(year: nat, month: nat, day: nat)

  /** The `year`, `month` and `day` strings `run` computes once per batch. */
  datatype DateStamp = DateStamp(year: string, month: string, day: string)

  /** A string of decimal digits naming `n` without zero padding. */
  predicate IsDecimalOf(s: string, n: nat)
  {
    && |s| >= 1
    && (forall i :: 0 <= i < |s| ==> IsDigit(s[i]))
    && DecimalValue(s) == n
    && (s[0] == '0' ==> s == "0")
  }

  /** `str(TODAY.year)`, `str(TODAY.month)`, `str(TODAY.day)`. */
  function Stamp(today: Date): (s: DateStamp)
    ensures IsDecimalOf(s.year, today.year)
    ensures IsDecimalOf(s.month, today.month)
    ensures IsDecimalOf(s.day, today.day)
  {
    DecimalRoundTrip(today.year);
    DecimalRoundTrip(today.month);
    DecimalRoundTrip(today.day);
    DateStamp(Decimal(today.year), Decimal(today.month), Decimal(today.day))
  }

  /** Different dates give different stamps. */
  lemma StampInjective(d1: Date, d2: Date)
    requires Stamp(d1) == Stamp(d2)
    ensures d1 == d2
  {
    DecimalInjective(d1.year, d2.year);
    DecimalInjective(d1.month, d2.month);
    DecimalInjective(d1.day, d2.day);
  }

  /**
   * `build_url(comic, year, month, day)`: the base URL and the four segments
   * joined by "/", that is `<base>/<comic>/<year>/<month>/<day>`.
   */
  function BuildUrl(comic: string, year: string, month: string, day: string): (url: string)
    ensures url == GoComicsBaseUrl + "/" + comic + "/" + year + "/" + month + "/" + day
  {
    var parts := [GoComicsBaseUrl, comic, year, month, day];
    assert parts[1..] == [comic, year, month, day];
    assert [comic, year, month, day][1..] == [year, month, day];
    assert [year, month, day][1..] == [month, day];
    assert [month, day][1..] == [day];
    assert Join([month, day], "/") == month + "/" + day;
    assert Join([year, month, day], "/") == year + "/" + (month + "/" + day);
    assert Join([comic, year, month, day], "/") == comic + "/" + (year + "/" + (month + "/" + day));
    Join(parts, "/")
  }

  /** The base URL is the scheme, an empty segment and the host, joined by "/". */
  lemma BaseUrlParts()
    ensures "https:" + "/" + ("" + "/" + "www.gocomics.com") == GoComicsBaseUrl
  {
  }

  /** The "/"-separated segments of a page URL whose four segments hold no "/". */
  lemma {:induction false} BuildUrlSegments(comic: string, year: string, month: string, day: string)
    requires '/' !in comic && '/' !in year && '/' !in month && '/' !in day
    ensures Split(BuildUrl(comic, year, month, day), '/')
      == ["https:", "", "www.gocomics.com", comic, year, month, day]
  {
    var segments := ["https:", "", "www.gocomics.com", comic, year, month, day];
    var tail := [comic, year, month, day];
    assert tail[1..] == [year, month, day];
    assert [year, month, day][1..] == [month, day];
    assert [month, day][1..] == [day];
    assert Join([month, day], "/") == month + "/" + day;
    assert Join([year, month, day], "/") == year + "/" + (month + "/" + day);
    var rest := comic + "/" + (year + "/" + (month + "/" + day));
    assert Join(tail, "/") == rest;
    assert segments[1..] == ["", "www.gocomics.com"] + tail;
    assert (["", "www.gocomics.com"] + tail)[1..] == ["www.gocomics.com"] + tail;
    assert (["www.gocomics.com"] + tail)[1..] == tail;
    assert Join(["www.gocomics.com"] + tail, "/") == "www.gocomics.com" + "/" + rest;
    assert Join(["", "www.gocomics.com"] + tail, "/") == "" + "/" + ("www.gocomics.com" + "/" + rest);
    assert Join(segments, "/") == "https:" + "/" + ("" + "/" + ("www.gocomics.com" + "/" + rest));
    BaseUrlParts();
    assert Join(segments, "/") == GoComicsBaseUrl + "/" + rest;
    SplitJoin(segments, '/');
  }

  /** For 5 March 2021 the stamp is "2021", "3", "5": no zero padding. */
  lemma StampExample()
    ensures Stamp(Date(2021, 3, 5)) == DateStamp("2021", "3", "5")
  {
    assert Decimal(2) == "2";
    assert Decimal(20) == "20";
    assert Decimal(202) == "202";
    assert Decimal(2021) == "2021";
  }

  /** The page of Calvin and Hobbes for 5 March 2021. */
  lemma UrlExample()
    ensures BuildUrl("calvinandhobbes", "2021", "3", "5")
      == "https://www.gocomics.com/calvinandhobbes/2021/3/5"
  {
  }

  /** The file name `run` gives a comic's image: `<comic>-(<year>-<month>-<day>).gif`. */
  function FileName(comic: string, stamp: DateStamp): (name: string)
    ensures |name| >= |comic| + 4
    ensures name[..|comic|] == comic
    ensures name[|name| - 4..] == ".gif"
  {
    comic + "-(" + stamp.year + "-" + stamp.month + "-" + stamp.day + ").gif"
  }

  /** The date part of a file name: the stamp's three parts joined by "-". */
  lemma FileNameMiddle(comic: string, s: DateStamp)
    ensures var name := FileName(comic, s);
      |name| >= |comic| + 7 && name[|comic| + 2..|name| - 5] == Join([s.year, s.month, s.day], "-")
  {
    assert [s.year, s.month, s.day][1..] == [s.month, s.day];
    assert [s.month, s.day][1..] == [s.day];
    assert Join([s.month, s.day], "-") == s.month + "-" + s.day;
    var x := Join([s.year, s.month, s.day], "-");
    assert x == s.year + "-" + (s.month + "-" + s.day);
    assert FileName(comic, s) == (comic + "-(") + x + ").gif";
  }

  /** Within one comic's folder, the file name determines the date: no two days share a file. */
  lemma FileNameDeterminesDate(comic: string, d1: Date, d2: Date)
    requires FileName(comic, Stamp(d1)) == FileName(comic, Stamp(d2))
    ensures d1 == d2
  {
    var s1, s2 := Stamp(d1), Stamp(d2);
    var p1, p2 := [s1.year, s1.month, s1.day], [s2.year, s2.month, s2.day];
    FileNameMiddle(comic, s1);
    FileNameMiddle(comic, s2);
    assert FileName(comic, s1)[|comic| + 2..|FileName(comic, s1)| - 5]
        == FileName(comic, s2)[|comic| + 2..|FileName(comic, s2)| - 5];
    assert Join(p1, "-") == Join(p2, "-");
    DigitsHaveNoDash(s1);
    DigitsHaveNoDash(s2);
    SplitJoin(p1, '-');
    SplitJoin(p2, '-');
    assert p1 == p2;
    assert s1 == s2;
    StampInjective(d1, d2);
  }

  /** The three parts of a stamp made of digits contain no "-". */
  lemma DigitsHaveNoDash(s: DateStamp)
    requires forall i :: 0 <= i < |s.year| ==> IsDigit(s.year[i])
    requires forall i :: 0 <= i < |s.month| ==> IsDigit(s.month[i])
    requires forall i :: 0 <= i < |s.day| ==> IsDigit(s.day[i])
    ensures '-' !in s.year && '-' !in s.month && '-' !in s.day
  {
  }

  /**
   * The path `save_comic_image` writes to before normalisation,
   * `'\\'.join([comic, name])`: the comic's folder, one backslash, the file name.
   */
  function SavePath(comic: string, name: string): (path: string)
    ensures path == comic + "\\" + name
    ensures |path| == |comic| + 1 + |name|
  {
    assert [comic, name][1..] == [name];
    assert Join([name], "\\") == name;
    Join([comic, name], "\\")
  }

  /** An element found by the image query, with its HTML attributes. */
  datatype Element = Element(attrib: map<string, string>)

  /** What `session.get` on a page URL, `html.fromstring` and `tree.find(COMIC_IMG_XPATH)` give. */
  datatype PageResponse =
    | Unreachable                    // session.get raised (connection retries used up, invalid URL)
    | Unparsable                     // html.fromstring raised on the body
    | Parsed(found: Option<Element>) // the result of tree.find, None when nothing matched

  /** The outside world as seen by one run. */
  datatype Web = Web(
    page: string -> PageResponse,      // fetching and querying a comic page
    image: string -> Option<seq<bv8>>, // session.get(img_url).content, None when session.get raised
    makeDir: string -> bool,           // whether create_folder(comic) returns normally
    canWrite: string -> bool)          // whether opening and writing a path succeeds

  /** The exception that ends the processing of one comic. */
  datatype ScrapeError =
    | FolderError(folder: string) // os.makedirs raised
    | RequestError(url: string)   // session.get raised
    | ParseError(url: string)     // html.fromstring raised
    | NoComic(message: string)    // the descriptive Exception raised in place of AttributeError
    | MissingSrc                  // the matched element has no src attribute (KeyError)
    | NoSession                   // save_comic_image called with no session (AttributeError)
    | WriteError(path: string)    // opening or writing the file raised

  /** The retry policy mounted on the session's adapters. */
  datatype Retry = Retry(connect: nat, backoffFactor: real)

  /** An HTTP session: the retry policy of the adapter mounted on each URL prefix. */
  datatype Session = Session(adapters: map<string, Retry>)

  /** The session `start_session` opens: three connect retries, backoff factor 0.5, for http and https. */
  const DefaultSession: Session :=
    Session(map["http://" := Retry(3, 0.5), "https://" := Retry(3, 0.5)])

  /** A saved image: the path written (before normalisation) and the bytes written to it. */
  datatype Written = Written(path: string, content: seq<bv8>)

  /**
   * `get_comic_image_url()` for the scraper's `session` and `url`: the `src`
   * of the element the image query finds on the page. When nothing matches,
   * or there is no session (both raise AttributeError inside the `try`), it
   * raises the descriptive exception instead.
   */
  function ImageUrl(session: Option<Session>, url: Option<string>, web: Web): (r: Result<string, ScrapeError>)
    ensures r.Success? <==>
      && session.Some? && url.Some?
      && web.page(url.value).Parsed? && web.page(url.value).found.Some?
      && "src" in web.page(url.value).found.value.attrib
    ensures r.Success? ==> r.value == web.page(url.value).found.value.attrib["src"]
    ensures session.None? ==> r == Failure(NoComic(NoComicMessage))
    ensures session.Some? && url.Some? && web.page(url.value) == Parsed(None) ==>
      r == Failure(NoComic(NoComicMessage))
    ensures r == Failure(NoComic(NoComicMessage)) <==>
      session.None? || (url.Some? && web.page(url.value) == Parsed(None))
    ensures session.Some? && url.None? ==> r == Failure(RequestError("None"))
    ensures session.Some? && url.Some? && web.page(url.value).Unreachable? ==> r == Failure(RequestError(url.value))
    ensures session.Some? && url.Some? && web.page(url.value).Unparsable? ==> r == Failure(ParseError(url.value))
    ensures (session.Some? && url.Some? && web.page(url.value).Parsed? && web.page(url.value).found.Some? &&
             "src" !in web.page(url.value).found.value.attrib) ==> r == Failure(MissingSrc)
  {
    if session.None? then Failure(NoComic(NoComicMessage))
    else if url.None? then Failure(RequestError("None"))
    else
      match web.page(url.value)
      case Unreachable => Failure(RequestError(url.value))
      case Unparsable => Failure(ParseError(url.value))
      case Parsed(None) => Failure(NoComic(NoComicMessage))
      case Parsed(Some(element)) =>
        if "src" in element.attrib then Success(element.attrib["src"]) else Failure(MissingSrc)
  }

  /**
   * `save_comic_image(url, comic, name)`: downloads `url` and writes its bytes
   * to `<comic>\<name>`; it fails when there is no session, the download
   * raises, or the file cannot be written.
   */
  function SaveImage(session: Option<Session>, url: string, comic: string, name: string, web: Web)
    : (r: Result<Written, ScrapeError>)
    ensures r.Success? <==> session.Some? && web.image(url).Some? && web.canWrite(SavePath(comic, name))
    ensures r.Success? ==> r.value == Written(SavePath(comic, name), web.image(url).value)
    ensures session.Some? && web.image(url).None? ==> r == Failure(RequestError(url))
  {
    if session.None? then Failure(NoSession)
    else
      match web.image(url)
      case None => Failure(RequestError(url))
      case Some(content) =>
        var path := SavePath(comic, name);
        if web.canWrite(path) then Success(Written(path, content)) else Failure(WriteError(path))
  }

  /**
   * What happened to one comic of the batch: its name, the value of
   * `self.url` when its page was looked up (None when `create_folder` raised
   * first, leaving `self.url` untouched), and the file written or the
   * exception caught.
   */
  datatype Attempt = Attempt(comic: string, requested: Option<string>, outcome: Result<Written, ScrapeError>)

  /**
   * The body of the `try` in `run` for one comic: create its folder, point
   * `self.url` at its page, look up the image and save it under the
   * `.gif` file name, stopping at the first exception.
   */
  function ProcessComic(session: Option<Session>, comic: string, stamp: DateStamp, web: Web): (a: Attempt)
    ensures a.comic == comic
    ensures a.requested == if web.makeDir(comic)
      then Some(BuildUrl(comic, stamp.year, stamp.month, stamp.day)) else None
    ensures !web.makeDir(comic) ==> a.outcome == Failure(FolderError(comic))
    ensures a.requested.Some? && ImageUrl(session, a.requested, web).Failure? ==>
      a.outcome == Failure(ImageUrl(session, a.requested, web).error)
    ensures a.requested.Some? && ImageUrl(session, a.requested, web).Success? ==>
      a.outcome == SaveImage(session, ImageUrl(session, a.requested, web).value, comic, FileName(comic, stamp), web)
    ensures a.outcome.Success? ==>
      && a.requested.Some?
      && ImageUrl(session, a.requested, web).Success?
      && a.outcome.value.path == SavePath(comic, FileName(comic, stamp))
      && var src := ImageUrl(session, a.requested, web).value;
         web.image(src).Some? && a.outcome.value.content == web.image(src).value
  {
    if !web.makeDir(comic) then Attempt(comic, None, Failure(FolderError(comic)))
    else
      var requested := Some(BuildUrl(comic, stamp.year, stamp.month, stamp.day));
      match ImageUrl(session, requested, web)
      case Failure(e) => Attempt(comic, requested, Failure(e))
      case Success(src) => Attempt(comic, requested, SaveImage(session, src, comic, FileName(comic, stamp), web))
  }

  /** The attempts of `run` over `comics`, one per comic, in list order. */
  function Batch(session: Option<Session>, comics: seq<string>, stamp: DateStamp, web: Web): (attempts: seq<Attempt>)
    ensures |attempts| == |comics|
  {
    if comics == [] then []
    else Batch(session, comics[..|comics| - 1], stamp, web) + [ProcessComic(session, comics[|comics| - 1], stamp, web)]
  }

  /**
   * `self.url` after processing `comics` from `start`: the page of the last
   * comic whose folder was created, and `start` when no folder was created.
   */
  function FinalUrl(start: Option<string>, comics: seq<string>, stamp: DateStamp, web: Web): (url: Option<string>)
    ensures (forall j :: 0 <= j < |comics| ==> !web.makeDir(comics[j])) ==> url == start
  {
    if comics == [] then start
    else
      var last := comics[|comics| - 1];
      if web.makeDir(last) then Some(BuildUrl(last, stamp.year, stamp.month, stamp.day))
      else
        var init := comics[..|comics| - 1];
        var url := FinalUrl(start, init, stamp, web);
        assert forall k :: 0 <= k < |init| ==> init[k] == comics[k];
        url
  }

  /**
   * The batch attempts every comic, in list order, and the attempt for each
   * comic is what that comic alone gives: nothing an earlier comic does,
   * failure included, changes it.
   */
  lemma {:induction false} BatchAttemptsEach(session: Option<Session>, comics: seq<string>, stamp: DateStamp, web: Web)
    ensures |Batch(session, comics, stamp, web)| == |comics|
    ensures forall k :: 0 <= k < |comics| ==>
      Batch(session, comics, stamp, web)[k] == ProcessComic(session, comics[k], stamp, web)
  {
    if comics != [] {
      BatchAttemptsEach(session, comics[..|comics| - 1], stamp, web);
    }
  }

  /**
   * Whatever happens at comic `k`, failure included, the batch goes on: the
   * attempts after it are exactly those of a batch of the remaining comics,
   * so they do not depend on anything up to `k`.
   */
  lemma LaterAttemptsIndependent(session: Option<Session>, comics: seq<string>, stamp: DateStamp, web: Web, k: nat)
    requires k < |comics|
    ensures Batch(session, comics, stamp, web)[k + 1..] == Batch(session, comics[k + 1..], stamp, web)
  {
    BatchAttemptsEach(session, comics, stamp, web);
    BatchAttemptsEach(session, comics[k + 1..], stamp, web);
  }

  /**
   * After the batch, `self.url` is the page of the last comic whose folder
   * was created (when there was none, `FinalUrl` promises the earlier value).
   */
  lemma {:induction false} FinalUrlIsLastPage(start: Option<string>, comics: seq<string>, stamp: DateStamp, web: Web)
    ensures (exists j :: 0 <= j < |comics| && web.makeDir(comics[j])) ==>
      exists k :: 0 <= k < |comics| && web.makeDir(comics[k])
        && (forall j :: k < j < |comics| ==> !web.makeDir(comics[j]))
        && FinalUrl(start, comics, stamp, web) == Some(BuildUrl(comics[k], stamp.year, stamp.month, stamp.day))
  {
    if comics != [] {
      var init := comics[..|comics| - 1];
      FinalUrlIsLastPage(start, init, stamp, web);
      if !web.makeDir(comics[|comics| - 1]) {
        if exists j :: 0 <= j < |comics| && web.makeDir(comics[j]) {
          var j :| 0 <= j < |comics| && web.makeDir(comics[j]);
          assert init[j] == comics[j];
          var k :| 0 <= k < |init| && web.makeDir(init[k])
            && (forall i :: k < i < |init| ==> !web.makeDir(init[i]))
            && FinalUrl(start, init, stamp, web) == Some(BuildUrl(init[k], stamp.year, stamp.month, stamp.day));
          assert comics[k] == init[k];
          forall i | k < i < |comics| ensures !web.makeDir(comics[i]) {
            if i < |init| { assert comics[i] == init[i]; }
          }
        }
      }
    }
  }

  /** The scraper: the comics to fetch, its HTTP session and the page URL being processed. */
  class Scraper {
    var session: Option<Session>
    var url: Option<string>
    const comics: seq<string>

    /** `Scraper(comics)`: no session and no URL yet. */
    constructor (comics: seq<string>)
      ensures session == None && url == None && this.comics == comics
    {
      session := None;
      url := None;
      this.comics := comics;
    }

    /** `start_session()`: replaces the session by a fresh one with the retry policy mounted. */
    method StartSession()
      modifies this
      ensures session == Some(DefaultSession) && url == old(url)
    {
      session := Some(DefaultSession);
    }

    /**
     * `get_comic_image_url()`: looks up the image of the page at `self.url`.
     * Specified by the function `ImageUrl`, whose cases it follows step by step.
     */
    method GetComicImageUrl(web: Web) returns (r: Result<string, ScrapeError>)
      ensures r == ImageUrl(session, url, web)
    {
      if session.None? {
        return Failure(NoComic(NoComicMessage));
      }
      if url.None? {
        return Failure(RequestError("None"));
      }
      var response := web.page(url.value);
      if response.Unreachable? {
        r := Failure(RequestError(url.value));
      } else if response.Unparsable? {
        r := Failure(ParseError(url.value));
      } else if response.found.None? {
        r := Failure(NoComic(NoComicMessage));
      } else if "src" !in response.found.value.attrib {
        r := Failure(MissingSrc);
      } else {
        r := Success(response.found.value.attrib["src"]);
      }
    }

    /**
     * `save_comic_image(url, comic, name)`: downloads the image and writes it
     * to `<comic>\<name>`. Specified by the function `SaveImage`.
     */
    method SaveComicImage(imageUrl: string, comic: string, name: string, web: Web)
      returns (r: Result<Written, ScrapeError>)
      ensures r == SaveImage(session, imageUrl, comic, name, web)
    {
      if session.None? {
        return Failure(NoSession);
      }
      var content := web.image(imageUrl);
      if content.None? {
        return Failure(RequestError(imageUrl));
      }
      var path := SavePath(comic, name);
      if !web.canWrite(path) {
        return Failure(WriteError(path));
      }
      r := Success(Written(path, content.value));
    }

    /**
     * `run()`: stamps the date once, opens the session, then processes every
     * comic in list order, catching each comic's exception. Returns what
     * happened to each comic, which `run` reports through its log.
     */
    method Run(today: Date, web: Web) returns (attempts: seq<Attempt>)
      modifies this
      ensures session == Some(DefaultSession)
      ensures attempts == Batch(session, comics, Stamp(today), web)
      ensures |attempts| == |comics|
      ensures forall k :: 0 <= k < |comics| ==> attempts[k].comic == comics[k]
      ensures url == FinalUrl(old(url), comics, Stamp(today), web)
    {
      var stamp := Stamp(today);
      var year, month, day := stamp.year, stamp.month, stamp.day;
      StartSession();
      attempts := [];
      var i := 0;
      // The loop body is the `try` block of `run`; `ProcessComic` specifies it.
      while i < |comics|
        invariant 0 <= i <= |comics|
        invariant session == Some(DefaultSession)
        invariant attempts == Batch(session, comics[..i], stamp, web)
        invariant url == FinalUrl(old(url), comics[..i], stamp, web)
      {
        var comic := comics[i];
        var attempt;
        if !web.makeDir(comic) {
          attempt := Attempt(comic, None, Failure(FolderError(comic)));
        } else {
          url := Some(BuildUrl(comic, year, month, day));
          var imageUrl := GetComicImageUrl(web);
          if imageUrl.Failure? {
            attempt := Attempt(comic, url, Failure(imageUrl.error));
          } else {
            var fileName := FileName(comic, stamp);
            var saved := SaveComicImage(imageUrl.value, comic, fileName, web);
            attempt := Attempt(comic, url, saved);
          }
        }
        attempts := attempts + [attempt];
        assert comics[..i + 1][..i] == comics[..i];
        i := i + 1;
      }
      assert comics[..i] == comics;
      BatchAttemptsEach(session, comics, stamp, web);
    }
  }
}
