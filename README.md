# go-comics-scraper, modelled in Dafny

A model of the two pieces of the daily comic scraper that carry logic:

- **The configuration reader** (`IniParser`, src/IniParser.py). The parsed INI
  file is a map from section name to a map from option name to raw string.
  A property is the raw value split on `,` with every item trimmed of
  whitespace. The Reddit accessor collapses a one-item list to its item;
  the GoComics accessor always returns the list. `update_property` stores
  `str(value)` under an option of the `GoComicsScraper` section, in place.
- **The scraper** (`Scraper`, src/scraper.py). It builds the page URL
  `https://www.gocomics.com/<comic>/<year>/<month>/<day>` from unpadded
  decimal date parts, looks up the comic image on that page, and saves it as
  `<comic>\<comic>-(<year>-<month>-<day>).gif`. `run` computes the date parts
  once, opens a session with a retry policy, and then processes every
  configured comic in list order. Each comic's exception is caught, so the
  batch always goes on to the next comic.

Files:

- `wrappers.dfy`: `Option`, `Result` and `Outcome`, which stand for Python's
  `None` and for raised exceptions.
- `strings.dfy`: the Python string built-ins the code relies on. These are
  `str.split` with a one-character separator, `str.join`, `str.strip` and
  `str(int)`. Each is proved against its inverse or against an independent
  characterisation.
- `ini_parser.dfy`: the configuration as a `map<string, map<string, string>>`,
  the accessors as functions over it, and class `IniParser`, whose
  `UpdateProperty` method rewrites the map in place.
- `scraper.dfy`: the URL, file-name and path templates; the image lookup and
  the image save as functions of an abstract `Web`; and class `Scraper`,
  with fields `session`, `url` and `comics` and the `Run` loop. `Run` is
  proved equal to the specification `Batch`, and `url` after the loop is
  proved equal to `FinalUrl`.

The network, the HTML parser and the filesystem are inputs. A `Web` value
says, for each URL or path, what fetching the page and running the image
query gives, what downloading an image gives, whether creating a comic's
folder succeeds, and whether writing a file succeeds. The run's date is a
parameter.

Three details of the code are kept as written:

- The save path is joined with a backslash (`'\\'.join([comic, name])`), not with `/`.
- Only `Exception` subclasses are caught per comic, not every interruption.
- `self.url` is assigned only after the comic's folder has been created. When
  folder creation fails, `url` keeps the previous comic's page.

## Model

| member | source | states |
|---|---|---|
| `Strings.Split` | src/IniParser.py:13 | `value.split(",")` has exactly one more piece than the value has commas (so never zero pieces), and no piece contains the separator |
| `Strings.JoinSplit` | src/IniParser.py:13 | joining the pieces of a split with the separator gives back the original value |
| `Strings.SplitJoin` | src/IniParser.py:13 | splitting a join of separator-free parts gives back exactly those parts |
| `Strings.TrimLeft` | src/IniParser.py:14 | the left strip removes the whole whitespace prefix and keeps the rest unchanged, so the result does not start with whitespace |
| `Strings.TrimRight` | src/IniParser.py:14 | the right strip removes the whole whitespace suffix and keeps the rest unchanged, so the result does not end with whitespace |
| `Strings.Strip` | src/IniParser.py:14 | `val.strip()` is a slice of `val` with only whitespace on either side of it and no whitespace at either end |
| `Strings.StripIdempotent` | src/IniParser.py:14 | stripping an already stripped item changes nothing |
| `Strings.Decimal` | src/scraper.py:67-69 | `str(n)` is a non-empty string of decimal digits that starts with `0` only for 0 (no zero padding), and is one digit exactly when n < 10 |
| `Strings.DecimalRoundTrip` | src/scraper.py:67-69 | reading the digits of `str(n)` back gives n |
| `Strings.Join` | src/scraper.py:21 | `sep.join(parts)` of one part is that part, and of several parts starts with the first part and the separator; `SplitJoin` and `JoinSplit` tie it to `split` |
| `Strings.IntString` | src/IniParser.py:30 | `str(i)` starts with `-` exactly when i is negative; the digits after it have no zero padding and read back to the absolute value of i |
| `IniParser.SplitValue` | src/IniParser.py:13-14 | gives one item per comma-separated piece (count = commas + 1). Each item is its piece stripped, contains no comma, and has no surrounding whitespace |
| `IniParser.SplitValueJoin` | src/IniParser.py:13-14 | comma-free items without surrounding whitespace, written joined by commas, read back as the same list |
| `IniParser.GetProperties` | src/IniParser.py:11-14 | a missing section or option fails with that `KeyError` and never falls back to a default. Otherwise the result is the split-and-stripped raw value, which is never empty, so `properties[0]` is in range |
| `IniParser.Str` | src/IniParser.py:30 | `str(value)` keeps a string as it is and writes an int as `str(int)`; for an int, bool or None the text is non-empty, has no comma and no surrounding whitespace |
| `IniParser.GetRedditProperties` | src/IniParser.py:16-19 | fails exactly when `get_properties` fails, with the same error. A list result has at least two items and is the whole `get_properties` list; a single string is the only item of that list |
| `IniParser.RedditPropertiesShape` | src/IniParser.py:16-19 | the Reddit accessor fails exactly when `get_properties` fails, with the same error. It returns the whole list exactly when the raw value holds a comma, and otherwise the raw value stripped |
| `IniParser.GetGoComicsProperties` | src/IniParser.py:21-23 | succeeds exactly when the GoComicsScraper section has the option, and then always gives the list; otherwise fails with the same `KeyError` as `get_properties` (missing section, or missing option) |
| `IniParser.SetProperty` | src/IniParser.py:29-30 | a missing GoComicsScraper section fails with `KeyError`. Otherwise only option `property` of that section changes, and it becomes `str(value)`; every other option and section is unchanged |
| `IniParser.UpdateKeepsOtherReads` | src/IniParser.py:29-30 | after an update, reading any other option or section gives the same result as before |
| `IniParser.UpdateThenRead` | src/IniParser.py:11-30 | after `update_property(p, v)`, `get_gocomics_properties(p)` gives `[str(v)]` when `str(v)` has no comma and no surrounding whitespace |
| `IniParser.IniParser.constructor` | src/IniParser.py:6-9 | the parser holds the file name and the parsed contents |
| `IniParser.IniParser.UpdateProperty` | src/IniParser.py:29-30 | the configuration in place becomes the one `SetProperty` describes. A `KeyError` leaves it unchanged |
| `Scraper.Stamp` | src/scraper.py:67-69 | year, month and day are decimal strings of the date's numbers with no zero padding, and they read back to those numbers |
| `Scraper.StampInjective` | src/scraper.py:67-69 | different dates give different year/month/day strings |
| `Scraper.StampExample` | src/scraper.py:67-69 | 5 March 2021 gives "2021", "3", "5" |
| `Scraper.BuildUrl` | src/scraper.py:15-21 | `build_url(c, y, m, d)` is `https://www.gocomics.com/` followed by c, y, m and d separated by `/` |
| `Scraper.BuildUrlSegments` | src/scraper.py:20-21 | splitting a page URL on `/` gives back the host parts and the four segments, when none of the segments contains `/` |
| `Scraper.UrlExample` | src/scraper.py:20-21 | Calvin and Hobbes on 5 March 2021 is `https://www.gocomics.com/calvinandhobbes/2021/3/5` |
| `Scraper.FileName` | src/scraper.py:78-82 | the file name starts with the comic's name and always ends in `.gif`, whatever was downloaded |
| `Scraper.FileNameDeterminesDate` | src/scraper.py:82 | for one comic, two dates with the same file name are the same date |
| `Scraper.SavePath` | src/scraper.py:49 | the path written before normalisation is `comic + "\" + name` |
| `Scraper.ImageUrl` | src/scraper.py:54-64 | succeeds exactly when there is a session and a URL, the page parses, the query finds an element, and that element has a `src`. It then returns that `src`. It fails with the descriptive "xpath … was incorrect or there currently is no comic for today." error exactly when there is no session or no element matches (the two AttributeError cases). Every other failure passes through as it was raised: an unreachable page or a missing URL gives the request error, an unparsable page the parse error, and an element without `src` the `KeyError` |
| `Scraper.SaveImage` | src/scraper.py:43-52 | succeeds exactly when there is a session, the download succeeds and the path `comic\name` is writable. It then writes exactly the downloaded bytes to that path. A failed download fails with that URL |
| `Scraper.ProcessComic` | src/scraper.py:72-85 | a comic whose folder cannot be created fails before `self.url` is set. Otherwise `self.url` during the lookup is `build_url(comic, year, month, day)`. A lookup failure is the comic's failure. After a successful lookup the comic's outcome is exactly the save of that `src` to `comic\<file name>`, so the comic is saved exactly when the folder, the lookup, the download and the write all succeed. A saved file holds the bytes downloaded from the `src` found on that page |
| `Scraper.Batch` | src/scraper.py:71-87 | the batch has one attempt per configured comic |
| `Scraper.BatchAttemptsEach` | src/scraper.py:71-87 | every comic is attempted, in list order, and each comic's attempt is what that comic alone gives, whatever the other comics do |
| `Scraper.FinalUrl` | src/scraper.py:71-75 | when no comic's folder was created, `self.url` keeps its value from before the batch |
| `Scraper.LaterAttemptsIndependent` | src/scraper.py:71-87 | whatever happens at comic k, failure included, the attempts for comics k+1..n are exactly those of a batch of the remaining comics |
| `Scraper.FinalUrlIsLastPage` | src/scraper.py:71-75 | when some comic's folder was created, `self.url` after the batch is the page of the last such comic |
| `Scraper.Scraper.constructor` | src/scraper.py:31-34 | a new scraper has no session and no URL, and holds the comics it was given |
| `Scraper.Scraper.StartSession` | src/scraper.py:36-41 | the session becomes one with 3 connect retries and backoff factor 0.5, mounted for `http://` and `https://` |
| `Scraper.Scraper.GetComicImageUrl` | src/scraper.py:54-64 | returns the image lookup for the current `session` and `url`, as `ImageUrl` specifies |
| `Scraper.Scraper.SaveComicImage` | src/scraper.py:43-52 | returns the save for the current `session`, as `SaveImage` specifies |
| `Scraper.Scraper.Run` | src/scraper.py:66-87 | computes the date strings once, opens the session, and returns one attempt per comic, in list order, equal to `Batch`. It leaves `url` as `FinalUrl` describes |

## Left out

- src/reddit.py: a thin wrapper over the Reddit client library (login and one submission). It has no logic of its own.
- HTTP: the session records only its retry configuration. What a request returns, including the effect of retries and back-off, is an input (`Web.page`, `Web.image`).
- HTML parsing and the XPath query are done by lxml. Their outcome for a page is an input (`Web.page`: unreachable, unparsable, or the element found or not).
- Filesystem: whether `os.makedirs` succeeds is an input (`Web.makeDir`). `os.path.normpath` is not modelled, so paths are the strings before normalisation. A write is returned as a `Written` record, not applied to a modelled filesystem. Reading the INI file and `save_changes` are left out too.
- Logging: its set-up and message texts are left out. `Run` returns each comic's attempt instead of logging it.
- `datetime.now()`: the date is a parameter of `Run`. Dates are not range-checked.
- Strings.IsSpace: only the ASCII characters that Python's `str.strip` removes are whitespace here. Python also strips non-ASCII whitespace, such as U+00A0 and U+2028.
- configparser's own behaviour: option names are not lower-cased, and there is no DEFAULT-section fallback. `%` interpolation is also left out. In Python's configparser, reading expands `%(name)s` and `%%`, and writing rejects a stray `%`, so the read-back of `UpdateThenRead` holds there only for values without `%`.
- GetProperties: reading a raw value with a stray `%` or a `%(name)s` naming a missing option raises `InterpolationSyntaxError` or `InterpolationMissingOptionError` in Python's configparser. The model has no such error path, so its "fails exactly when the section or option is missing" covers only values without `%`.
- IniParser.Str: covers only string, int, bool and None values. Other Python types passed to `update_property` are not modelled.
- Exceptions outside `Exception` are not modelled: `KeyboardInterrupt` and `SystemExit` would end the batch. So are any exceptions other than those `ScrapeError` lists.
- The `__main__` blocks of both files are left out. The IniParser one references an undefined name.
