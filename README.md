# Blogracy static-file resolver, modelled in Dafny

This project models `StaticFileResolverImpl`, the resolver that Blogracy's web
layer uses to serve files from a static root directory inside the host's
tracker web server. The resolver does three things:

- It checks its root once, when it is built. The root must exist and be a
  directory. Otherwise a `ServerConfigurationError` is raised, and the message
  for a missing root differs from the message for a root that is not a
  directory.
- It maps a URL to the file `root + url`. `resolvePath` returns that file's
  absolute path or raises a 404 `URLMappingError`. `couldResolve` answers
  whether the file exists.
- It asks the host to send that file (`useFile`) and interprets the result.
  A file that was sent needs nothing more. If it was not sent, a URL ending in
  "/" gets a 303 See Other to `url + "index.html"`, and any other URL gets a 404.
  Exceptions thrown by `useFile` become a `URLMappingError`: 404 for
  `FileNotFoundException`, 403 for `SecurityException`, 404 for any other
  `IOException`.

Layout:

- `wrappers.dfy` (`Wrappers`): `Option`, `Result` and `Outcome`. These stand for
  a return or a thrown exception.
- `files.dfy` (`Files`): an abstract filesystem. It holds the set of existing
  absolute paths, the set of directories and a working directory.
  `AbsolutePath`, `Exists` and `IsDirectory` follow `java.io.File` on a Unix
  host, including that the empty path never exists. `Join` puts the root and the URL side by side.
- `http.dfy` (`Http`): the status codes (303, 403 and 404, as in sections
  15.4.4, 15.5.4 and 15.5.5 of RFC 9110), the request, and the host's
  `Response` as a class with mutable `status` and `headers`.
- `errors.dfy` (`Errors`): `ServerConfigurationError`, `URLMappingError` and the
  exceptions `useFile` may throw, with Java's subclass relation
  (`FileNotFoundException` is an `IOException`).
- `static_files.dfy` (`StaticFiles`): the resolver itself. The class
  `StaticFileResolver` holds the fields `mimeFinder` and `staticFilesDirectory`.
  Its methods change those fields or the response. Beside it are the pure
  specification functions `RootCheck` (the root check) and `ResolutionOf` (what
  `resolve` does), and the lemmas about them. `FirstMatchingClause` picks a
  catch clause the way Java does: the first clause, in order, whose class the
  exception belongs to.

A Java constructor that throws becomes a static method returning a `Result`:
`Create` is the one-argument constructor and `CreateWithMimeFinder` the
two-argument one. Like the source, each first builds the object (the
`mimeFinder` field initialiser runs), then runs the root check, which sets the
root. The two-argument form then replaces the finder. The host's `useFile` is
a parameter of `Resolve`: a function from the absolute root and the URL to how
the call ended (`Sent`, `NotSent` or `Threw(exception)`).

## Model

| member | source | states |
|---|---|---|
| `StaticFiles.StaticFileResolver.constructor` | blogracy/src/it/unipr/aotlab/blogracy/web/resolvers/staticfiles/StaticFileResolverImpl.java:44 | a new resolver starts with the factory's default mime finder, before its root is checked |
| `StaticFiles.StaticFileResolver.Create` | blogracy/src/it/unipr/aotlab/blogracy/web/resolvers/staticfiles/StaticFileResolverImpl.java:47-49 | construction succeeds exactly when the root exists and is a directory; on success the root is the given one and the finder is the factory default; on failure the error has the "does not exist" or "not a directory" message |
| `StaticFiles.StaticFileResolver.CreateWithMimeFinder` | blogracy/src/it/unipr/aotlab/blogracy/web/resolvers/staticfiles/StaticFileResolverImpl.java:51-55 | the same validation and errors as the one-argument form; on success the supplied finder replaces the default |
| `StaticFiles.StaticFileResolver.ChecksValidStaticRootAndSetField` | blogracy/src/it/unipr/aotlab/blogracy/web/resolvers/staticfiles/StaticFileResolverImpl.java:63-77 | sets the root exactly when it passes the check; a failed check leaves the field as it was |
| `StaticFiles.ErrorMessageNotExists` | blogracy/src/it/unipr/aotlab/blogracy/web/resolvers/staticfiles/StaticFileResolverImpl.java:79-83 | the "does not exist" message holds the root verbatim between its fixed prefix and suffix, so the root can be read back from it |
| `StaticFiles.ErrorMessageNotDirectory` | blogracy/src/it/unipr/aotlab/blogracy/web/resolvers/staticfiles/StaticFileResolverImpl.java:85-89 | the "not a directory" message holds the root verbatim between its fixed prefix and suffix, so the root can be read back from it |
| `StaticFiles.RootCheck` | blogracy/src/it/unipr/aotlab/blogracy/web/resolvers/staticfiles/StaticFileResolverImpl.java:63-77 | the decision of the root check: it passes exactly when the root exists and is a directory |
| `StaticFiles.ResolutionOf` | blogracy/src/it/unipr/aotlab/blogracy/web/resolvers/staticfiles/StaticFileResolverImpl.java:131-153 | the decision of resolve for each useFile outcome; any error it raises has status 403 or 404 |
| `StaticFiles.RootCheckCases` | blogracy/src/it/unipr/aotlab/blogracy/web/resolvers/staticfiles/StaticFileResolverImpl.java:63-77 | a missing root gets the "does not exist" message; an existing non-directory gets the "not a directory" message |
| `StaticFiles.MessagesDiffer` | blogracy/src/it/unipr/aotlab/blogracy/web/resolvers/staticfiles/StaticFileResolverImpl.java:79-89 | a "does not exist" message never equals a "not a directory" message, for any two roots |
| `StaticFiles.MessagesNameTheRoot` | blogracy/src/it/unipr/aotlab/blogracy/web/resolvers/staticfiles/StaticFileResolverImpl.java:79-89 | each message determines the root it names |
| `StaticFiles.ConfigurationErrorIdentifiesCause` | blogracy/src/it/unipr/aotlab/blogracy/web/resolvers/staticfiles/StaticFileResolverImpl.java:63-89 | two failed checks with the same error concern the same root and agree on whether it existed |
| `StaticFiles.FirstMatchingClause` | blogracy/src/it/unipr/aotlab/blogracy/web/resolvers/staticfiles/StaticFileResolverImpl.java:146-153 | picks the first catch clause whose class the exception is an instance of; no clause before it matches; none at all iff no clause matches |
| `StaticFiles.CatchClauseFor` | blogracy/src/it/unipr/aotlab/blogracy/web/resolvers/staticfiles/StaticFileResolverImpl.java:146-153 | a FileNotFoundException is handled by the first clause, although the IOException clause also accepts it; a SecurityException by the second; any other IOException by the third |
| `StaticFiles.SentIsServed` | blogracy/src/it/unipr/aotlab/blogracy/web/resolvers/staticfiles/StaticFileResolverImpl.java:135-136 | resolve completes with nothing more to do exactly when useFile sent the file |
| `StaticFiles.RedirectCases` | blogracy/src/it/unipr/aotlab/blogracy/web/resolvers/staticfiles/StaticFileResolverImpl.java:136-138 | resolve redirects exactly when the file was not sent and the URL ends in "/"; the target is url + "index.html" |
| `StaticFiles.FailureCases` | blogracy/src/it/unipr/aotlab/blogracy/web/resolvers/staticfiles/StaticFileResolverImpl.java:139-153 | resolve raises in every other case; the status is 403 iff useFile threw a SecurityException and 404 otherwise; a URL that was not sent and is not directory-like gets "Could not find " + url; an exception thrown by useFile becomes the cause |
| `StaticFiles.RedirectIsNotRedirected` | blogracy/src/it/unipr/aotlab/blogracy/web/resolvers/staticfiles/StaticFileResolverImpl.java:157-165 | the redirect target never ends in "/", so if it is not sent either, the answer is a 404 and not another redirect |
| `StaticFiles.MayBeDirectoryUrl` | blogracy/src/it/unipr/aotlab/blogracy/web/resolvers/staticfiles/StaticFileResolverImpl.java:163-165 | a URL may be a directory exactly when it is non-empty and its last character is "/" |
| `StaticFiles.StaticFileResolver.RedirectToIndexInDirectory` | blogracy/src/it/unipr/aotlab/blogracy/web/resolvers/staticfiles/StaticFileResolverImpl.java:157-161 | the response's status becomes 303 and its Location header becomes url + "index.html"; no other header changes |
| `StaticFiles.StaticFileResolver.Resolve` | blogracy/src/it/unipr/aotlab/blogracy/web/resolvers/staticfiles/StaticFileResolverImpl.java:94-155 | asks the host for the URL under the absolute root; sets the 303 redirect only in the redirect case; otherwise leaves the status and headers alone; raises exactly the error the resolution calls for |
| `StaticFiles.StaticFileResolver.GetFileSystemPath` | blogracy/src/it/unipr/aotlab/blogracy/web/resolvers/staticfiles/StaticFileResolverImpl.java:190-192 | the path is the root followed by the URL verbatim: nothing is removed or normalised, ".." included |
| `StaticFiles.StaticFileResolver.ResolvePath` | blogracy/src/it/unipr/aotlab/blogracy/web/resolvers/staticfiles/StaticFileResolverImpl.java:167-178 | succeeds iff root + url exists and returns its absolute path, which itself exists and is absolute under an absolute working directory; otherwise raises 404 "Could not find file for " + that absolute path |
| `StaticFiles.StaticFileResolver.CouldResolve` | blogracy/src/it/unipr/aotlab/blogracy/web/resolvers/staticfiles/StaticFileResolverImpl.java:194-198 | true exactly when resolvePath for the same URL would not raise |
| `Files.AbsolutePathIsFixed` | blogracy/src/it/unipr/aotlab/blogracy/web/resolvers/staticfiles/StaticFileResolverImpl.java:170-171 | under an absolute working directory, getAbsolutePath returns an absolute path, applying it twice changes nothing, and for a non-empty path the result exists iff the original does |
| `Http.Response.SetReplyStatus` | blogracy/src/it/unipr/aotlab/blogracy/web/resolvers/staticfiles/StaticFileResolverImpl.java:159 | sets the status and leaves the headers alone |
| `Http.Response.SetHeader` | blogracy/src/it/unipr/aotlab/blogracy/web/resolvers/staticfiles/StaticFileResolverImpl.java:160 | replaces one header and leaves the status and the other headers alone |

## Left out

- What `useFile` does inside the host is not modelled: the content-type table, the limit on files without an extension, and what it writes to the response. Only how the call ended is an input. So the 200 status and the `Content-Type` header of a sent file are outside the model.
- `MimeFinderFactory` and `MimeFinder` are not part of this model. A finder is an opaque named value, and the model records only which finder a resolver holds.
- The `Logger.info` call in the redirect is left out. It is a logging side effect.
- `sendFile` is left out. It is never called and depends on `FileUtils`, which is not part of this model.
- `Join` does not model `java.io.File`'s separator insertion or its collapsing of repeated and trailing slashes. It agrees with them only for a URL that starts with "/", has no repeated "/" and does not end in "/", under a root without a trailing slash. One consequence concerns directory-like URLs: for "/docs/" under an existing directory `/srv/www/docs`, Java's `couldResolve` is true and `resolvePath` returns `/srv/www/docs`. In the model both look up `/srv/www/docs/` instead, so they answer false and 404 unless that exact string is in the set of paths. Symbolic links and canonical paths are not modelled either. As in the source, nothing guards against ".." in a URL.
- `CouldResolve`, `ResolvePath`, `Resolve` and the root check do not model the `SecurityException` that `File.exists()`, `File.isDirectory()` and `File.getAbsolutePath()` throw when a security manager denies the read. `getAbsolutePath()` reads the working directory for a relative root. The source catches none of these. This includes the `getAbsolutePath()` call in `resolve`, which comes before its `try`, so there such an exception propagates uncaught instead of becoming a 403.
- `Resolve` models only the three exceptions `useFile` can throw through the resolver's catch clauses. Other unchecked exceptions would propagate unchanged.
- The model takes `URLMappingError` not to be an `IOException`. Its class is not part of this model. If it were one, the 404 raised inside the `try` would be caught and wrapped again by the `IOException` clause.
- Before its root is checked, the object's root is an empty string. Java leaves that field `null`. `Create` and `CreateWithMimeFinder` never return such an object. The bare constructor only runs the field initialiser. A resolver built with it alone has an unchecked root, which Java does not allow: its constructors are package-private, and both run the check before returning.
- `ErrorPageResolver`, the `UserRSS` plugin wiring and the `Users` factory are outside the resolver and not modelled.
- Concurrent calls are not modelled. The resolver has no per-request state, and each call here is sequential.
