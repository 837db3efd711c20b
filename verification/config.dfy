/** The fixed configuration of the converter (video_to_audio/config.py; the
    single-file variant declares the same values at its top). */
module Config {

  /** File suffixes, compared lower-cased, that count as video files. */
  const SupportedVideoExtensions: set<string> := {
    ".mp4", ".mov", ".avi", ".mkv", ".webm",
    ".flv", ".wmv", ".m4v", ".mpg", ".mpeg",
    ".3gp", ".ogv", ".ts", ".mts", ".m2ts",
    ".vob", ".divx", ".f4v"
  }

  const AudioCodec: string := "aac"
  const AudioBitrate: string := "160k"
  const OutputExtension: string := ".m4a"

  const SilenceThreshold: string := "-55dB"
  const SilenceDuration: string := "1.2"

  const TargetLufs: string := "-16"
  const LoudnessRange: string := "11"
  const TruePeak: string := "-1.5"

  const TempSuffix1: string := ".temp1.m4a"
  const TempSuffix2: string := ".temp2.m4a"
}
