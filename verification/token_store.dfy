/**
 * The token file `tokens.json`: one slot that is overwritten by `json.dump`,
 * read back by `json.load`, tested with `os.path.exists` and deleted with
 * `os.remove`. Both Flask clients keep their token set in such a slot.
 */
module TokenStore {
  import opened Wrappers
  import opened Json

  /** A token set as the token endpoint returns it, a JSON object. */
  type TokenRecord = Dict

  class TokenFile {
    /** The JSON object the file holds, or `None` when the file does not exist. */
    var contents: Option<TokenRecord>

    constructor (initial: Option<TokenRecord>)
      ensures contents == initial
    {
      contents := initial;
    }

    /** `json.dump(record, open(TOKEN_FILE, 'w'))`: the file now holds exactly `record`. */
    method Save(record: TokenRecord)
      modifies this
      ensures contents == Some(record)
    {
      contents := Some(record);
    }

    /**
     * `load_token`: the stored record, or `None` when opening the file raises
     * `FileNotFoundError`.
     */
    method Load() returns (r: Option<TokenRecord>)
      ensures r == contents
    {
      r := contents;
    }

    /** `os.path.exists(TOKEN_FILE)`. */
    method Exists() returns (b: bool)
      ensures b <==> contents.Some?
    {
      b := contents.Some?;
    }

    /** `os.remove(TOKEN_FILE)`, which the source only calls after `Exists`. */
    method Remove()
      requires contents.Some?
      modifies this
      ensures contents == None
    {
      contents := None;
    }
  }
}
