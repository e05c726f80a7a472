/**
 * How the receiver decides where an incoming file is written: which of the
 * file's identifiers it uses, which values it refuses before touching the
 * disk, and how an identifier without a leading `/` is replaced by a path
 * built from the options.
 */
module Destination {
  import opened Wrappers
  import opened JsValues

  /**
   * `path.resolve(process.cwd(), dirpath, filename)`: a function of the
   * working directory and the two options, given from outside the model.
   */
  type Resolver = (string, JsValue, JsValue) -> string

  /**
   * `skipperFd || (isString(fd) ? fd : undefined)`, then the string check:
   * the identifier to write to, or the refused candidate.
   */
  function SelectFd(skipperFd: JsValue, fd: JsValue): (r: Result<string, JsValue>)
    ensures Truthy(skipperFd) ==> (r.Ok? <==> skipperFd.Str?)
    ensures Truthy(skipperFd) && r.Ok? ==> r.value == skipperFd.s && r.value != ""
    ensures Truthy(skipperFd) && r.Err? ==> r.error == skipperFd
    ensures !Truthy(skipperFd) ==> (r.Ok? <==> fd.Str?)
    ensures !Truthy(skipperFd) && r.Ok? ==> r.value == fd.s
    ensures !Truthy(skipperFd) && r.Err? ==> r.error == Undefined
  {
    var candidate := if Truthy(skipperFd) then skipperFd else if fd.Str? then fd else Undefined;
    if candidate.Str? then Ok(candidate.s) else Err(candidate)
  }

  /** `/^\//`: the identifier begins with a slash. */
  predicate IsAbsolute(id: string)
    ensures IsAbsolute(id) <==> "/" <= id
  {
    |id| > 0 && id[0] == '/'
  }

  /**
   * The path the file is written to: the identifier itself when it begins
   * with `/`, otherwise the resolved options path.
   */
  function ResolveDestination(id: string, cwd: string, dirpath: JsValue, filename: JsValue, resolve: Resolver): (path: string)
    ensures IsAbsolute(id) ==> path == id
    ensures !IsAbsolute(id) ==> path == resolve(cwd, dirpath, filename)
    ensures (forall c, d, f :: IsAbsolute(resolve(c, d, f))) ==> IsAbsolute(path)
  {
    if IsAbsolute(id) then id else resolve(cwd, dirpath, filename)
  }

  /** An identifier with a leading `/` is used as it is. */
  lemma AbsoluteIdentifierKept(id: string, cwd: string, dirpath: JsValue, filename: JsValue, resolve: Resolver)
    requires IsAbsolute(id)
    ensures ResolveDestination(id, cwd, dirpath, filename, resolve) == id
  {
  }

  /** A relative identifier does not influence the path: any two give the same one. */
  lemma RelativeIdentifierIgnored(id1: string, id2: string, cwd: string, dirpath: JsValue, filename: JsValue, resolve: Resolver)
    requires !IsAbsolute(id1) && !IsAbsolute(id2)
    ensures ResolveDestination(id1, cwd, dirpath, filename, resolve) == resolve(cwd, dirpath, filename)
    ensures ResolveDestination(id1, cwd, dirpath, filename, resolve) == ResolveDestination(id2, cwd, dirpath, filename, resolve)
  {
  }

  /**
   * As `path.resolve` always yields an absolute path, every destination is
   * absolute, and resolving a destination again leaves it unchanged.
   */
  lemma DestinationIsAbsolute(id: string, cwd: string, dirpath: JsValue, filename: JsValue, resolve: Resolver)
    requires forall c, d, f :: IsAbsolute(resolve(c, d, f))
    ensures IsAbsolute(ResolveDestination(id, cwd, dirpath, filename, resolve))
    ensures var path := ResolveDestination(id, cwd, dirpath, filename, resolve);
            ResolveDestination(path, cwd, dirpath, filename, resolve) == path
  {
  }

  /**
   * A truthy string `skipperFd` wins over `fd`; `fd` is used only when
   * `skipperFd` is falsy, and only when it is a string.
   */
  lemma SkipperFdPreferred(skipperFd: string, fd: JsValue)
    requires skipperFd != ""
    ensures SelectFd(Str(skipperFd), fd) == Ok(skipperFd)
  {
  }

  /**
   * A truthy `skipperFd` that is not a string is refused even when `fd` is a
   * usable string: the fallback applies only to a falsy `skipperFd`.
   */
  lemma TruthyNonStringRefused(n: int, fd: string)
    requires n != 0
    ensures SelectFd(Num(n), Str(fd)).Err?
  {
  }

  /**
   * An empty `fd` is accepted when `skipperFd` is falsy: it is a string, and
   * as it has no leading `/` it is replaced by the options path.
   */
  lemma EmptyFdAccepted(cwd: string, dirpath: JsValue, filename: JsValue, resolve: Resolver)
    ensures SelectFd(Undefined, Str("")) == Ok("")
    ensures ResolveDestination("", cwd, dirpath, filename, resolve) == resolve(cwd, dirpath, filename)
  {
  }
}
