/**
 * What server.js asks of Node.js and never computes itself: the working
 * directory, the file-system queries and the path helpers. They are inputs of
 * the model, so every property holds for any file system and any path library.
 */
module Platform {

  datatype Host = Host(
    cwd: string,                      // process.cwd()
    fileExists: string -> bool,       // fs.existsSync
    isDirectory: string -> bool,      // fs.lstatSync(p).isDirectory()
    isAbsolute: string -> bool,       // path.isAbsolute
    join: (string, string) -> string  // path.join
  )
}
