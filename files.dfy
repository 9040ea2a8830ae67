/**
 * The part of the file system the server touches: whole files by path.
 * `existsSync`, `unlinkSync`, `readFileSync` and `writeFileSync` become the
 * methods below; what external processes write is given to the model as
 * input.
 */
module Files {

  class FileSystem {
    var files: map<string, string>

    constructor (initial: map<string, string>)
      ensures files == initial
    {
      files := initial;
    }

    /** `fs.existsSync(path)`. */
    method Exists(path: string) returns (b: bool)
      ensures b <==> path in files
    {
      b := path in files;
    }

    /** `fs.unlinkSync(path)` on a path that exists; on a missing path the source's call would throw, which is reported as `false`. */
    method Unlink(path: string) returns (removed: bool)
      modifies this
      ensures removed <==> path in old(files)
      ensures files == old(files) - {path}
    {
      removed := path in files;
      files := files - {path};
    }

    /** `fs.writeFileSync(path, content)`. */
    method Write(path: string, content: string)
      modifies this
      ensures files == old(files)[path := content]
    {
      files := files[path := content];
    }
  }
}
