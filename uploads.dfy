/** The upload directory, seen as the set of file names it holds. */
module Uploads {

  class Directory {
    var names: set<string>

    constructor (names: set<string>)
      ensures this.names == names
    {
      this.names := names;
    }
  }
}
