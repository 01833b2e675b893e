/**
 * The static-file resolver: validates a root directory once, maps URLs to
 * files under it, and turns the host's attempt to send a file into a reply
 * or a URLMappingError.
 */
module StaticFiles {
  import opened Wrappers
  import opened Files
  import opened Http
  import opened Errors

  /** The file a directory-like URL is redirected to. */
  const IndexFile := "index.html"

  /** The header naming the redirect target. */
  const LocationHeader := "Location"

  /** The content-type finder a resolver uses, identified by name. */
  datatype MimeFinder = MimeFinder(name: string)

  /** The instance the process-wide factory hands out. */
  const FactoryMimeFinder := MimeFinder("factory default")

  /** How the host's useFile(root, url) ended. */
  datatype UseFileOutcome =
    | Sent
    | NotSent
    | Threw(exception: HostException)

  // ---------------------------------------------------------------------
  // Construction: validating the root
  // ---------------------------------------------------------------------

  const RootPrefix := "Static files root "
  const NotExistsSuffix := " does not exist."
  const NotDirectorySuffix := " exists but is not a directory."

  /** The message for a missing root; the root can be read back from between its fixed ends. */
  function ErrorMessageNotExists(root: string): (m: string)
    ensures |m| == |RootPrefix| + |root| + |NotExistsSuffix|
    ensures m[|RootPrefix|..|m| - |NotExistsSuffix|] == root
  {
    RootPrefix + root + NotExistsSuffix
  }

  /** The message for a root that is not a directory; the root can be read back likewise. */
  function ErrorMessageNotDirectory(root: string): (m: string)
    ensures |m| == |RootPrefix| + |root| + |NotDirectorySuffix|
    ensures m[|RootPrefix|..|m| - |NotDirectorySuffix|] == root
  {
    RootPrefix + root + NotDirectorySuffix
  }

  /** What checksValidStaticRootAndSetField decides about a root: it passes exactly on an existing directory. */
  function RootCheck(fs: FileSystem, root: string): (r: Outcome<ServerConfigurationError>)
    ensures r.Pass? <==> fs.Exists(root) && fs.IsDirectory(root)
  {
    if fs.Exists(root) then
      if fs.IsDirectory(root) then Pass
      else Fail(ServerConfigurationError(ErrorMessageNotDirectory(root)))
    else Fail(ServerConfigurationError(ErrorMessageNotExists(root)))
  }

  /** Each way the root check fails has its own message. */
  lemma RootCheckCases(fs: FileSystem, root: string)
    ensures !fs.Exists(root) ==> RootCheck(fs, root) == Fail(ServerConfigurationError(ErrorMessageNotExists(root)))
    ensures fs.Exists(root) && !fs.IsDirectory(root) ==>
              RootCheck(fs, root) == Fail(ServerConfigurationError(ErrorMessageNotDirectory(root)))
  {
  }

  /** No "does not exist" message is ever a "not a directory" message, whatever the roots. */
  lemma MessagesDiffer(root: string, other: string)
    ensures ErrorMessageNotExists(root) != ErrorMessageNotDirectory(other)
  {
    var a, b := ErrorMessageNotExists(root), ErrorMessageNotDirectory(other);
    assert a[|a| - 2] == 't';
    assert b[|b| - 2] == 'y';
  }

  /** Each message names its root: equal messages come from equal roots. */
  lemma MessagesNameTheRoot(root: string, other: string)
    ensures ErrorMessageNotExists(root) == ErrorMessageNotExists(other) ==> root == other
    ensures ErrorMessageNotDirectory(root) == ErrorMessageNotDirectory(other) ==> root == other
  {
  }

  /**
   * A configuration error tells its reader which root failed and why: two
   * failed checks with the same message concern the same root, and agree on
   * whether it existed.
   */
  lemma ConfigurationErrorIdentifiesCause(fs: FileSystem, root: string, fs': FileSystem, root': string)
    requires RootCheck(fs, root).Fail? && RootCheck(fs', root').Fail?
    requires RootCheck(fs, root).error == RootCheck(fs', root').error
    ensures root == root'
    ensures fs.Exists(root) == fs'.Exists(root')
  {
    MessagesNameTheRoot(root, root');
    if fs.Exists(root) != fs'.Exists(root') {
      if fs.Exists(root) {
        MessagesDiffer(root', root);
      } else {
        MessagesDiffer(root, root');
      }
    }
  }

  // ---------------------------------------------------------------------
  // Resolving a request
  // ---------------------------------------------------------------------

  /** String.endsWith. */
  predicate EndsWith(s: string, suffix: string) {
    |suffix| <= |s| && s[|s| - |suffix|..] == suffix
  }

  /** A URL ending in "/" may name a directory. */
  function MayBeDirectoryUrl(url: string): (b: bool)
    ensures b <==> |url| > 0 && url[|url| - 1] == '/'
  {
    EndsWith(url, "/")
  }

  /** A catch clause of resolve: the class it catches and the status of the error it throws. */
  datatype CatchClause = CatchClause(catches: ExceptionClass, status: int)

  /** resolve's catch clauses, in source order. */
  const ResolveCatchClauses: seq<CatchClause> := [
    CatchClause(FileNotFoundExceptionClass, NotFound),
    CatchClause(SecurityExceptionClass, Forbidden),
    CatchClause(IOExceptionClass, NotFound)
  ]

  /** Java's choice of handler: the first clause whose class the exception is an instance of. */
  function FirstMatchingClause(clauses: seq<CatchClause>, e: HostException): (r: Option<nat>)
    ensures r.Some? ==> r.value < |clauses| && InstanceOf(e, clauses[r.value].catches)
    ensures r.Some? ==> forall j :: 0 <= j < r.value ==> !InstanceOf(e, clauses[j].catches)
    ensures r.None? <==> forall j :: 0 <= j < |clauses| ==> !InstanceOf(e, clauses[j].catches)
  {
    if clauses == [] then None
    else if InstanceOf(e, clauses[0].catches) then Some(0)
    else match FirstMatchingClause(clauses[1..], e)
      case None => None
      case Some(i) => Some(i + 1)
  }

  /**
   * Every exception useFile may throw is caught by resolve, and by the clause
   * meant for it: a FileNotFoundException by the first clause although the
   * IOException clause would also accept it.
   */
  lemma CatchClauseFor(e: HostException)
    ensures FirstMatchingClause(ResolveCatchClauses, e) ==
              Some(match e
                   case FileNotFoundException => 0
                   case SecurityException => 1
                   case OtherIOException => 2)
  {
    var c := ResolveCatchClauses;
    match e
    case FileNotFoundException =>
    case SecurityException =>
      assert FirstMatchingClause(c[1..], e) == Some(0);
    case OtherIOException =>
      assert FirstMatchingClause(c[1..][1..], e) == Some(0);
      assert FirstMatchingClause(c[1..], e) == Some(1);
  }

  /** The status of the URLMappingError resolve throws for an exception from useFile. */
  function CaughtStatus(e: HostException): int {
    CatchClauseFor(e);
    ResolveCatchClauses[FirstMatchingClause(ResolveCatchClauses, e).value].status
  }

  /** What resolve does, as a value: the file went out, a redirect was set, or an error is thrown. */
  datatype Resolution = Served | Redirected(location: string) | Failed(error: URLMappingError)

  /** The decision resolve takes; an error it raises is always a 403 or a 404. */
  function ResolutionOf(url: string, outcome: UseFileOutcome): (r: Resolution)
    ensures r.Failed? ==> r.error.status == Forbidden || r.error.status == NotFound
  {
    match outcome
    case Sent => Served
    case NotSent =>
      if MayBeDirectoryUrl(url) then Redirected(url + IndexFile)
      else Failed(URLMappingError(NotFound, Message("Could not find " + url)))
    case Threw(e) =>
      CatchClauseFor(e);
      Failed(URLMappingError(CaughtStatus(e), Cause(e)))
  }

  /** A file that was sent needs nothing more from the resolver. */
  lemma SentIsServed(url: string, outcome: UseFileOutcome)
    ensures ResolutionOf(url, outcome).Served? <==> outcome == Sent
  {
  }

  /** A directory-like URL that was not sent is redirected to its index file, whether or not that exists. */
  lemma RedirectCases(url: string, outcome: UseFileOutcome)
    ensures ResolutionOf(url, outcome).Redirected? <==> outcome == NotSent && MayBeDirectoryUrl(url)
    ensures ResolutionOf(url, outcome).Redirected? ==> ResolutionOf(url, outcome).location == url + "index.html"
  {
  }

  /**
   * Every other outcome is an error: 403 exactly when useFile was refused by a
   * security check, 404 otherwise; a URL that was simply not found is named in
   * the message.
   */
  lemma FailureCases(url: string, outcome: UseFileOutcome)
    ensures ResolutionOf(url, outcome).Failed? <==> outcome != Sent && !(outcome == NotSent && MayBeDirectoryUrl(url))
    ensures ResolutionOf(url, outcome).Failed? ==>
              var status := ResolutionOf(url, outcome).error.status;
              (status == Forbidden <==> outcome == Threw(SecurityException)) &&
              (status == Forbidden || status == NotFound)
    ensures outcome == NotSent && !MayBeDirectoryUrl(url) ==>
              ResolutionOf(url, outcome).error == URLMappingError(NotFound, Message("Could not find " + url))
    ensures outcome.Threw? ==> ResolutionOf(url, outcome).error.reason == Cause(outcome.exception)
  {
    if outcome.Threw? {
      CatchClauseFor(outcome.exception);
    }
  }

  /**
   * The redirect target never looks like a directory, so a client following it
   * is never redirected again: if that file is not sent either, the answer is 404.
   */
  lemma RedirectIsNotRedirected(url: string)
    requires MayBeDirectoryUrl(url)
    ensures !MayBeDirectoryUrl(url + IndexFile)
    ensures ResolutionOf(url + IndexFile, NotSent).Failed?
    ensures ResolutionOf(url + IndexFile, NotSent).error.status == NotFound
  {
  }

  // ---------------------------------------------------------------------
  // The resolver object
  // ---------------------------------------------------------------------

  class StaticFileResolver {
    var mimeFinder: MimeFinder
    var staticFilesDirectory: string

    /**
     * The object before its root is checked: the field initialiser has run,
     * the root is still unset (empty here).
     */
    constructor ()
      ensures mimeFinder == FactoryMimeFinder && staticFilesDirectory == ""
    {
      mimeFinder := FactoryMimeFinder;
      staticFilesDirectory := "";
    }

    /** The one-argument constructor: succeeds exactly on an existing directory. */
    static method Create(fs: FileSystem, root: string) returns (r: Result<StaticFileResolver, ServerConfigurationError>)
      ensures r.Success? <==> fs.Exists(root) && fs.IsDirectory(root)
      ensures r.Success? ==> fresh(r.value) && r.value.staticFilesDirectory == root && r.value.mimeFinder == FactoryMimeFinder
      ensures r.Failure? ==> RootCheck(fs, root) == Fail(r.error)
      ensures r.Failure? ==>
                r.error.message == if fs.Exists(root) then ErrorMessageNotDirectory(root) else ErrorMessageNotExists(root)
    {
      var resolver := new StaticFileResolver();
      var checked := resolver.ChecksValidStaticRootAndSetField(fs, root);
      if checked.Fail? {
        return Failure(checked.error);
      }
      return Success(resolver);
    }

    /** The two-argument constructor: the same check, then the supplied finder replaces the default. */
    static method CreateWithMimeFinder(fs: FileSystem, root: string, finder: MimeFinder)
      returns (r: Result<StaticFileResolver, ServerConfigurationError>)
      ensures r.Success? <==> fs.Exists(root) && fs.IsDirectory(root)
      ensures r.Success? ==> fresh(r.value) && r.value.staticFilesDirectory == root && r.value.mimeFinder == finder
      ensures r.Failure? ==> RootCheck(fs, root) == Fail(r.error)
      ensures r.Failure? ==>
                r.error.message == if fs.Exists(root) then ErrorMessageNotDirectory(root) else ErrorMessageNotExists(root)
    {
      r := Create(fs, root);
      if r.Success? {
        r.value.mimeFinder := finder;
      }
    }

    /** Sets the root when it is an existing directory; otherwise throws and changes nothing. */
    method ChecksValidStaticRootAndSetField(fs: FileSystem, root: string) returns (o: Outcome<ServerConfigurationError>)
      modifies this`staticFilesDirectory
      ensures o == RootCheck(fs, root)
      ensures o.Pass? ==> staticFilesDirectory == root
      ensures o.Fail? ==> staticFilesDirectory == old(staticFilesDirectory)
    {
      if fs.Exists(root) {
        if fs.IsDirectory(root) {
          staticFilesDirectory := root;
          o := Pass;
        } else {
          o := Fail(ServerConfigurationError(ErrorMessageNotDirectory(root)));
        }
      } else {
        o := Fail(ServerConfigurationError(ErrorMessageNotExists(root)));
      }
    }

    /** The file a URL names under the root. */
    function GetFileSystemPath(url: string): (path: string)
      reads this
      ensures |path| == |staticFilesDirectory| + |url|
      ensures path[..|staticFilesDirectory|] == staticFilesDirectory && path[|staticFilesDirectory|..] == url
    {
      Join(staticFilesDirectory, url)
    }

    /**
     * The absolute path of the file the URL names when it exists, a 404 naming
     * that path otherwise.
     */
    function ResolvePath(fs: FileSystem, url: string): (r: Result<string, URLMappingError>)
      reads this
      ensures r.Success? <==> fs.Exists(staticFilesDirectory + url)
      ensures r.Success? ==> r.value == fs.AbsolutePath(staticFilesDirectory + url)
      ensures r.Success? && IsAbsolute(fs.workingDirectory) ==> IsAbsolute(r.value) && fs.Exists(r.value)
      ensures r.Failure? ==>
                r.error == URLMappingError(NotFound, Message("Could not find file for " + fs.AbsolutePath(staticFilesDirectory + url)))
    {
      var path := GetFileSystemPath(url);
      if fs.Exists(path) then
        AbsolutePathIsFixed(fs, path);
        Success(fs.AbsolutePath(path))
      else
        Failure(URLMappingError(NotFound, Message("Could not find file for " + fs.AbsolutePath(path))))
    }

    /** A URL can be resolved exactly when resolvePath would not throw. */
    function CouldResolve(fs: FileSystem, url: string): (b: bool)
      reads this
      ensures b <==> ResolvePath(fs, url).Success?
    {
      var tentativeFile := GetFileSystemPath(url);
      fs.Exists(tentativeFile)
    }

    /** Answers a directory-like URL with a 303 to its index file. */
    method RedirectToIndexInDirectory(url: string, response: Response)
      modifies response
      ensures response.status == SeeOther
      ensures response.headers == old(response.headers)[LocationHeader := url + IndexFile]
    {
      response.SetReplyStatus(SeeOther);
      response.SetHeader(LocationHeader, url + IndexFile);
    }

    /**
     * Asks the host to send the file for the request's URL from the absolute
     * root, and turns what happens into a redirect or a URLMappingError.
     * `useFile` stands for the host's answer to useFile(root, url).
     */
    method Resolve(fs: FileSystem, request: Request, useFile: (string, string) -> UseFileOutcome, response: Response)
      returns (error: Option<URLMappingError>)
      modifies response
      ensures var resolution := ResolutionOf(request.url, useFile(fs.AbsolutePath(staticFilesDirectory), request.url));
        && (resolution.Redirected? ==>
              response.status == SeeOther &&
              response.headers == old(response.headers)[LocationHeader := resolution.location])
        && (!resolution.Redirected? ==>
              response.status == old(response.status) && response.headers == old(response.headers))
        && error == (if resolution.Failed? then Some(resolution.error) else None)
    {
      var url := request.url;
      var staticFilesDirectoryName := fs.AbsolutePath(staticFilesDirectory);
      match useFile(staticFilesDirectoryName, url)
      case Sent =>
        error := None;
      case NotSent =>
        if MayBeDirectoryUrl(url) {
          RedirectToIndexInDirectory(url, response);
          error := None;
        } else {
          error := Some(URLMappingError(NotFound, Message("Could not find " + url)));
        }
      case Threw(e) =>
        error := Some(URLMappingError(CaughtStatus(e), Cause(e)));
    }
  }
}
