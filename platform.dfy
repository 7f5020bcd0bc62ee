/** The host operating system, as `electron-is` reports it: resolved once and
    fixed for the lifetime of the process. */
module Platform {
  datatype Kind = Windows | MacOS | Other
}
