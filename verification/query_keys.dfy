/** The cache-key factory for the user-files queries (src/lib/query-keys.ts). */
module QueryKeys {

  type QueryKey = seq<string>

  /** `queryKeys.files.all()`. */
  function FilesAll(): (key: QueryKey)
    ensures |key| == 1 && key[0] == "files"
  {
    ["files"]
  }

  /** `queryKeys.files.byUser(userId)`. */
  function FilesByUser(userId: string): (key: QueryKey)
    ensures |key| == 3 && key[0] == "files" && key[1] == "byUser" && key[2] == userId
  {
    ["files", "byUser", userId]
  }

  /** Invalidating `all()` reaches every user's key: it is a prefix of each. */
  lemma AllPrefixesByUser(userId: string)
    ensures FilesAll() <= FilesByUser(userId)
    ensures FilesAll() != FilesByUser(userId)
  {
  }

  /** Different users never share a key, and only equal ids give equal
      keys. */
  lemma ByUserInjective(u: string, v: string)
    ensures FilesByUser(u) == FilesByUser(v) <==> u == v
  {
    if FilesByUser(u) == FilesByUser(v) {
      assert FilesByUser(u)[2] == FilesByUser(v)[2];
    }
  }
}
