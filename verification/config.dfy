/** The process-wide settings of the service, read once before it serves. */
module Config {
  import opened Base

  /** The label table: position `i` names the classifier's output `i`. */
  const ClassNames: seq<string> :=
    ["T_Shirt", "Trouser", "Pullover", "Dress", "Coat",
     "Sandal", "Shirt", "Sneaker", "Bag", "Ankle_Boot"]

  /** Settings taken from the environment; an unset variable is `None`. */
  datatype Settings = Settings(
    appName: Option<string>,
    version: Option<string>,
    apiSecretKey: Option<string>)
}
