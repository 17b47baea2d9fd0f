/** The part of the file system the core reads and writes: regular files
    with their contents and directories. Paths that cannot be created (no
    permission, missing parent) are given as `readOnly`. */
module Files {

  class FileSystem {
    var files: map<string, string>
    var dirs: set<string>
    const readOnly: set<string>

    constructor(files: map<string, string>, dirs: set<string>, readOnly: set<string>)
      ensures this.files == files && this.dirs == dirs && this.readOnly == readOnly
    {
      this.files := files;
      this.dirs := dirs;
      this.readOnly := readOnly;
    }

    predicate Exists(path: string)
      reads this
    {
      path in files || path in dirs
    }
  }
}
