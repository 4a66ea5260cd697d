/**
 * A game library as listed in the library file: the route it is shown
 * under, the prefix of the platform files that belong to it, and whether it
 * is the default library. An absent prefix is the empty string, which is
 * falsy just as `undefined` is.
 */
module Libraries {
  datatype GameLibraryFileItem = GameLibraryFileItem(route: string, prefix: string, isDefault: bool)
}
