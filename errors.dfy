/** The exceptions the modelled code raises or lets escape, named after the Python classes. */
module Errors {

  datatype Error =
    | DuplicateFile                      // converters.DuplicateFile
    | NiftyConversionFailure(tool: string) // converters.NiftyConversionFailure
    | TarError                           // tarfile.TarError
    | ReadError                          // tarfile.ReadError, a TarError: the archive cannot be opened as asked
    | IndexError                         // list index / negative index out of range
    | KeyError(key: string)              // missing dictionary key
    | ValueError                         // bad unpacking, unsupported file name
    | AttributeError                     // missing attribute (DICOM tag, empty archive)
    | ZeroDivisionError                  // division by len([])
    | IOError                            // a write to the log or the console that raises
    | OSError                            // shutil.rmtree on something that is not a directory
}
