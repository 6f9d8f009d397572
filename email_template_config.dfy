/** The e-mail template beans: the Thymeleaf resolver, whose prefix is the template path
    made to end with the file separator, and the localisation message source. Setters on
    fresh objects become methods on small classes; a setting not yet made is None. */
module EmailTemplateConfig {
  import opened Wrappers
  import opened Strings

  datatype EmailTemplateProperties = EmailTemplateProperties(
    path: string, format: string, encoding: string, mode: string, cache: bool)

  datatype EmailTemplateLocalizationProperties = EmailTemplateLocalizationProperties(
    path: string, encoding: string, cacheSeconds: int)

  /** The template path as a resolver prefix: kept when it already ends with the
      separator, otherwise the separator appended once. */
  function NormalizePrefix(path: string, fileSeparator: string): (prefix: string)
    ensures EndsWith(prefix, fileSeparator)
    ensures EndsWith(path, fileSeparator) ==> prefix == path
    ensures !EndsWith(path, fileSeparator) ==> prefix == path + fileSeparator
  {
    if EndsWith(path, fileSeparator) then path
    else
      EndsWithAppended(path, fileSeparator);
      path + fileSeparator
  }

  /** Normalising a prefix twice is normalising it once. */
  lemma NormalizePrefixIdempotent(path: string, fileSeparator: string)
    ensures NormalizePrefix(NormalizePrefix(path, fileSeparator), fileSeparator) == NormalizePrefix(path, fileSeparator)
  {
  }

  /** A normalised prefix starts with the template path and adds at most the separator. */
  lemma NormalizePrefixExtendsPath(path: string, fileSeparator: string)
    ensures StartsWith(NormalizePrefix(path, fileSeparator), path)
    ensures |NormalizePrefix(path, fileSeparator)| <= |path| + |fileSeparator|
  {
    if !EndsWith(path, fileSeparator) {
      assert (path + fileSeparator)[..|path|] == path;
    }
  }

  datatype ResolverSettings = ResolverSettings(
    prefix: Option<string>,
    suffix: Option<string>,
    templateMode: Option<string>,
    characterEncoding: Option<string>,
    cacheable: Option<bool>)

  /** ClassLoaderTemplateResolver, configured through its setters. */
  class ClassLoaderTemplateResolver {
    var prefix: Option<string>
    var suffix: Option<string>
    var templateMode: Option<string>
    var characterEncoding: Option<string>
    var cacheable: Option<bool>

    function Settings(): ResolverSettings
      reads this
    {
      ResolverSettings(prefix, suffix, templateMode, characterEncoding, cacheable)
    }

    constructor()
      ensures Settings() == ResolverSettings(None, None, None, None, None)
    {
      prefix, suffix, templateMode, characterEncoding, cacheable := None, None, None, None, None;
    }

    method SetPrefix(value: string)
      modifies this
      ensures Settings() == old(Settings()).(prefix := Some(value))
    {
      prefix := Some(value);
    }

    method SetSuffix(value: string)
      modifies this
      ensures Settings() == old(Settings()).(suffix := Some(value))
    {
      suffix := Some(value);
    }

    method SetTemplateMode(value: string)
      modifies this
      ensures Settings() == old(Settings()).(templateMode := Some(value))
    {
      templateMode := Some(value);
    }

    method SetCharacterEncoding(value: string)
      modifies this
      ensures Settings() == old(Settings()).(characterEncoding := Some(value))
    {
      characterEncoding := Some(value);
    }

    method SetCacheable(value: bool)
      modifies this
      ensures Settings() == old(Settings()).(cacheable := Some(value))
    {
      cacheable := Some(value);
    }
  }

  /** thymeleafTemplateResolver: the file separator is the file.separator system property. */
  method ThymeleafTemplateResolver(templateProperties: EmailTemplateProperties, fileSeparator: string)
    returns (templateResolver: ClassLoaderTemplateResolver)
    ensures fresh(templateResolver)
    ensures templateResolver.Settings() == ResolverSettings(
      Some(NormalizePrefix(templateProperties.path, fileSeparator)),
      Some(templateProperties.format),
      Some(templateProperties.mode),
      Some(templateProperties.encoding),
      Some(templateProperties.cache))
  {
    templateResolver := new ClassLoaderTemplateResolver();
    var templatePath := templateProperties.path;
    templateResolver.SetPrefix(NormalizePrefix(templatePath, fileSeparator));
    templateResolver.SetSuffix(templateProperties.format);
    templateResolver.SetTemplateMode(templateProperties.mode);
    templateResolver.SetCharacterEncoding(templateProperties.encoding);
    templateResolver.SetCacheable(templateProperties.cache);
  }

  datatype Locale = Locale(language: string)

  const English := Locale("en")

  datatype MessageSourceSettings = MessageSourceSettings(
    basename: Option<string>,
    defaultLocale: Option<Locale>,
    defaultEncoding: Option<string>,
    cacheSeconds: Option<int>)

  /** ResourceBundleMessageSource, configured through its setters. */
  class ResourceBundleMessageSource {
    var basename: Option<string>
    var defaultLocale: Option<Locale>
    var defaultEncoding: Option<string>
    var cacheSeconds: Option<int>

    function Settings(): MessageSourceSettings
      reads this
    {
      MessageSourceSettings(basename, defaultLocale, defaultEncoding, cacheSeconds)
    }

    constructor()
      ensures Settings() == MessageSourceSettings(None, None, None, None)
    {
      basename, defaultLocale, defaultEncoding, cacheSeconds := None, None, None, None;
    }

    method SetBasename(value: string)
      modifies this
      ensures Settings() == old(Settings()).(basename := Some(value))
    {
      basename := Some(value);
    }

    method SetDefaultLocale(value: Locale)
      modifies this
      ensures Settings() == old(Settings()).(defaultLocale := Some(value))
    {
      defaultLocale := Some(value);
    }

    method SetDefaultEncoding(value: string)
      modifies this
      ensures Settings() == old(Settings()).(defaultEncoding := Some(value))
    {
      defaultEncoding := Some(value);
    }

    method SetCacheSeconds(value: int)
      modifies this
      ensures Settings() == old(Settings()).(cacheSeconds := Some(value))
    {
      cacheSeconds := Some(value);
    }
  }

  /** emailMessageSource */
  method EmailMessageSource(localizationProperties: EmailTemplateLocalizationProperties)
    returns (messageSource: ResourceBundleMessageSource)
    ensures fresh(messageSource)
    ensures messageSource.Settings() == MessageSourceSettings(
      Some(localizationProperties.path), Some(English),
      Some(localizationProperties.encoding), Some(localizationProperties.cacheSeconds))
  {
    messageSource := new ResourceBundleMessageSource();
    messageSource.SetBasename(localizationProperties.path);
    messageSource.SetDefaultLocale(English);
    messageSource.SetDefaultEncoding(localizationProperties.encoding);
    messageSource.SetCacheSeconds(localizationProperties.cacheSeconds);
  }
}
