/**
 * Errors of the libraries the runner depends on. Their structure belongs to
 * those libraries; each keeps only the text its `Display` renders.
 */
module Foreign {
  /** `std::io::Error` */
  datatype IoError = IoError(text: string)
  /** `config::ConfigError` */
  datatype ConfigError = ConfigError(text: string)
  /** `guppy::Error` */
  datatype GuppyError = GuppyError(text: string)
  /** `serde_json::Error` */
  datatype JsonError = JsonError(text: string)
  /** `quick_junit::Error` */
  datatype QuickJunitError = QuickJunitError(text: string)
  /** `toml::de::Error` */
  datatype TomlError = TomlError(text: string)
  /** `target_spec::Error` */
  datatype TargetSpecError = TargetSpecError(text: string)
  /** `target_spec::errors::TripleParseError` */
  datatype TripleParseError = TripleParseError(text: string)
}
