/** Outcomes shared by every part of the model: the exceptions that abort
    `apply.py` become the variants of `Fault`, and every operation that can
    raise one returns a `Result`. */
module Faults {

  datatype Option<+T> = None | Some(value: T)

  datatype Fault =
    /** `assert p != -1` in `PathResolver.resolve`: a `%` with no closing `%`;
        carries the pattern as it was passed in, before `~` expansion. */
    | Malformed(pattern: string)
    /** `self.resolvers[name]` raised `KeyError`: no entry for the token. */
    | UnknownToken(name: string)
    /** The entry `name` was looked up again while it was being resolved; the
        source recurses without bound there and Python raises `RecursionError`. */
    | Cyclic(name: string)
    /** `os.symlink` raised `FileExistsError`: something that is neither a
        link, a file nor a directory was still in the way. */
    | LinkBlocked(path: string)

  datatype Result<+T> = Ok(value: T) | Err(fault: Fault)
}
